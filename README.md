# Policy evaluation and document Q&A: a verified model

This project models the core of a retrieval-augmented question-answering service for insurance policy documents.

- A document arrives as a URL or a base64 payload with a file name. It is turned into text, the text is normalised, and the words are cut into overlapping windows of 500 words, 50 shared with the next window (`DocumentProcessor`).
- The windows are embedded by a remote model and held in an in-memory flat L2 index. A query embedding retrieves the five nearest chunks (`VectorStore`).
- The evaluation pipeline combines a free-text query with structured fields. It has the model extract entities, indexes every document's chunks, analyses the five closest clauses, asks for a final decision, and, once the calls at app/services/policy_eval_pipeline.py:65 and :76 are awaited, merges the entities and the analysis into that decision (`PolicyEvalPipeline`; see "## Findings" for the code as written).
- The Q&A service indexes one document and answers each question from its own five nearest chunks (`QAService`).
- The model gateway parses JSON replies and builds answer contexts (`GeminiService`).
- `Security` checks the `Authorization: Bearer <key>` header.
- The evaluation endpoint maps the pipeline's result onto its response (`Evaluation`).

Model calls, embedding calls, `json.loads`, the HTTP fetch, base64 decoding and the PDF/DOCX/UTF-8 readers are functions passed in as parameters: `Gemini` and `DocumentReader` values. A function returning `Err` stands for a call that raises, with the exception text. Whether `GEMINI_API_KEY` is set is a boolean parameter. The configured `HACKRX_API_KEY` is a string parameter (app/core/config.py:7-8).

The project's modules:

- `Wrappers`: Option and Result.
- `Text`: Python's `strip`, `split`, `join`, `partition`, `lower`, `replace` and `str(int)`.
- `Json`: values and `dict.get`.
- `DocumentProcessor`, `VectorStore`, `GeminiService`, `Security`, `PolicyEvalPipeline`, `QAService` and `Evaluation`.

Code that updates state step by step is modelled as methods with loops:

- the PDF page loop;
- the chunking loop;
- the document loop;
- the FAISS scan;
- the result loop of `search`;
- the question loop;
- the justification loop.

Each method is proved equal to a specification function, or proved to satisfy a relational one. The vector store is a class whose fields `documentChunks` and `index` are extended by `AddDocuments`.

Where verification and the text disagree:

- FAISS's flat search is specified relationally (`Ranked`). Those min(N, k) ids are distinct, in range and sorted by distance, and no entry outside them is closer than the last one. The order among equal distances is not promised.
- `asyncio.gather` is modelled as a sequential map in question order. The first question whose embedding fails decides the exception.

## Model

| member | source | states |
|---|---|---|
| DocumentProcessor.SourceOf | app/services/document_processor.py:25-35 | content goes to the fetcher exactly when it starts with `http://` or `https://`; anything else is decoded as base64 |
| DocumentProcessor.FileExtension | app/services/document_processor.py:39 | with a `.` in the name, the extension is the lower-cased text after the last `.`, which holds no `.`; with no `.`, it is "" |
| DocumentProcessor.FormatOf | app/services/document_processor.py:39-50 | the plain-text reader is chosen exactly when the extension is neither pdf nor docx |
| DocumentProcessor.FormatOfCases | app/services/document_processor.py:39-50 | the PDF reader is chosen exactly for extension "pdf" and the DOCX reader exactly for "docx"; a name without `.` is read as plain text |
| DocumentProcessor.ConcatPages | app/services/document_processor.py:44-45 | the page loop yields the pages' texts concatenated in page order, a page without text contributing "" |
| DocumentProcessor.PdfTextAppend | app/services/document_processor.py:44-45 | the PDF text of two page runs is the concatenation of their texts |
| DocumentProcessor.ExtractText | app/services/document_processor.py:37-52 | the text of the chosen reader: concatenated pages, paragraphs joined by newlines, or decoded bytes; a failing reader raises |
| DocumentProcessor.CollapseNewlinesWithoutNewline | app/services/document_processor.py:58 | collapsing newline runs does nothing on text without a newline |
| DocumentProcessor.CollapseWhitespace | app/services/document_processor.py:57 | replacing whitespace runs never lengthens the text and leaves it empty only when it was empty |
| DocumentProcessor.CollapseNewlines | app/services/document_processor.py:58 | replacing newline runs never lengthens the text and leaves it empty only when it was empty |
| DocumentProcessor.CleanText | app/services/document_processor.py:54-59 | cleaning never lengthens the text |
| DocumentProcessor.CollapseStripped | app/services/document_processor.py:56-57 | on text without boundary whitespace, replacing each whitespace run by one space gives the words joined by single spaces |
| DocumentProcessor.CleanTextIsJoinedWords | app/services/document_processor.py:54-59 | cleaned text is exactly the text's words joined by single spaces |
| DocumentProcessor.CleanTextShape | app/services/document_processor.py:56-57 | cleaned text has no boundary whitespace and every separator is one space; it is empty exactly when the text has no words |
| DocumentProcessor.CleanTextKeepsWords | app/services/document_processor.py:54-59 | cleaning keeps the words of the text, in order |
| DocumentProcessor.CleanTextIdempotent | app/services/document_processor.py:54-59 | cleaning cleaned text changes nothing |
| DocumentProcessor.Chunks | app/services/document_processor.py:61-72 | there are ceil(words/450) chunks, and none exactly when the text has no word |
| DocumentProcessor.ChunkText | app/services/document_processor.py:61-72 | the chunking loop yields, for every start 0, 450, 900, …, the next (at most) 500 words joined by spaces; no words gives no chunk |
| DocumentProcessor.ChunkCountIsCeiling | app/services/document_processor.py:68 | the loop runs ceil(n / 450) times: the last start is below n and the next one is not |
| DocumentProcessor.BlankTextHasNoChunks | app/services/document_processor.py:63-65 | there is no chunk exactly when the text has no words, in particular for whitespace-only text |
| DocumentProcessor.WindowBounds | app/services/document_processor.py:68-69 | window j starts at word 450·j, is non-empty, holds at most 500 consecutive words, and the last window runs to the end |
| DocumentProcessor.ChunkWords | app/services/document_processor.py:69-70 | chunk j is non-empty, single-spaced, and its words are exactly window j |
| DocumentProcessor.WindowOverlap | app/services/document_processor.py:9-10 | consecutive windows share the words after the step; a full window shares exactly 50 words with the next |
| DocumentProcessor.EveryWordInAWindow | app/services/document_processor.py:68-69 | every word i lies in window i / 450 at offset i % 450 |
| DocumentProcessor.StartBelowCount | app/services/document_processor.py:68 | every start below the word count is a loop iteration |
| DocumentProcessor.ExampleTwelveHundredWords | app/services/document_processor.py:68-69 | 1200 words give windows 0–500, 450–950 and 900–1200 |
| DocumentProcessor.DocumentChunks | app/services/document_processor.py:12-23 | a document yields chunks exactly when its content can be read and its text extracted; otherwise the reader's exception |
| DocumentProcessor.DocumentChunksAreWindows | app/services/document_processor.py:12-23 | a readable document yields the chunks of its extracted text |
| DocumentProcessor.ProcessDocument | app/services/document_processor.py:12-23 | process_document fetches or decodes, extracts by the metadata file name (default ""), cleans and chunks, and raises when a reader raises |
| VectorStore.SqDist | app/services/vector_store_service.py:9 | the squared L2 distance is never negative |
| VectorStore.Distances | app/services/vector_store_service.py:41 | one distance per indexed vector, in index order |
| VectorStore.InsertByDistance | app/services/vector_store_service.py:41 | inserting a candidate lengthens the list by one, and the result holds exactly the old ids plus the new one |
| VectorStore.InsertKeepsSorted | app/services/vector_store_service.py:41 | inserting a candidate into a distance-sorted, in-range list keeps it sorted and in range |
| VectorStore.SortedInFront | app/services/vector_store_service.py:41 | a candidate strictly closer than the head of a sorted list may go first and the list stays sorted |
| VectorStore.SortedBehindHead | app/services/vector_store_service.py:41 | a head no farther than the candidate and the rest stays first in front of the sorted remainder |
| VectorStore.InsertKeepsDistinct | app/services/vector_store_service.py:41 | inserting an id not yet present keeps the list free of duplicates |
| VectorStore.KeepNearest | app/services/vector_store_service.py:41 | after the scan step, the kept ids are the nearest of the vectors seen so far |
| VectorStore.FlatL2Search | app/services/vector_store_service.py:41 | the flat search returns k slots: the min(n, k) nearest ids sorted by distance with their distances, then -1 labels |
| VectorStore.VectorStoreService.constructor | app/services/vector_store_service.py:5-10 | a new store of the given dimension with no chunk and no vector |
| VectorStore.VectorStoreService.AddDocuments | app/services/vector_store_service.py:12-27 | the texts and embeddings are appended in the same order, so chunk i stays paired with vector i; an empty list changes nothing |
| VectorStore.VectorStoreService.Search | app/services/vector_store_service.py:29-51 | an empty index gives []; otherwise min(n, k) hits of the nearest chunks, sorted by distance, each with its text and squared distance, with no -1 label reaching the results |
| VectorStore.PairEntries | app/services/policy_eval_pipeline.py:61 | zip pairs chunk i with embedding i and stops at the shorter list |
| VectorStore.TextsAt | app/services/policy_eval_pipeline.py:67 | the texts of the hits, in hit order |
| VectorStore.StoreOf | app/services/policy_eval_pipeline.py:38-62 | a fresh store holding exactly the paired texts and embeddings |
| VectorStore.RankedScoresNonDecreasing | app/services/vector_store_service.py:44-50 | scores come out in non-decreasing order |
| VectorStore.DistinctSetSize | app/services/vector_store_service.py:41 | distinct ids name as many entries as there are ids |
| VectorStore.RankedTakesAllWhenFew | app/services/vector_store_service.py:41 | with no more than k entries, every entry is returned |
| GeminiService.FencedJson | app/services/gemini_service.py:16-20 | the group of the leftmost fenced json block with the shortest body (the lazy match), and None exactly when no block is present |
| GeminiService.ParseFailure | app/services/gemini_service.py:27 | the fallback record has exactly the keys `error` and `raw_response`, the latter holding the raw reply |
| GeminiService.ParseJsonResponse | app/services/gemini_service.py:14-27 | the decoded block, or the whole reply when there is no block; an undecodable string gives the error record, never an exception |
| GeminiService.ParseFailureKeepsRawReply | app/services/gemini_service.py:24-27 | the error record holds "Failed to parse LLM response" and the whole reply, not the extracted block |
| GeminiService.FirstFenceIsParsed | app/services/gemini_service.py:16-18 | the leftmost lazy match is the group taken |
| GeminiService.FencedBlockIsParsed | app/services/gemini_service.py:16-23 | prose, a fenced block and more prose parse as the block |
| GeminiService.CloseFenceNotEarlier | app/services/gemini_service.py:16 | a body without a closing fence puts none inside the reply before the block ends |
| GeminiService.ExtractEntities | app/services/gemini_service.py:29-47 | it raises exactly when the call to the entity prompt does, with that call's error; otherwise the result is `ParseJsonResponse` of the reply, so it never raises on a malformed reply |
| GeminiService.AnalyzePolicyClauses | app/services/gemini_service.py:49-84 | it raises exactly when the call to the clause prompt does, with that call's error; otherwise the result is `ParseJsonResponse` of the reply, so it never raises on a malformed reply |
| GeminiService.FinalDecisionReasoning | app/services/gemini_service.py:104-132 | it raises exactly when the call to the decision prompt does, with that call's error; otherwise the result is `ParseJsonResponse` of the reply, so it never raises on a malformed reply |
| GeminiService.AnswerContext | app/services/gemini_service.py:140 | no chunk gives the empty context; otherwise the context starts with the nearest chunk |
| GeminiService.AnswerContextKeepsChunks | app/services/gemini_service.py:140 | single-line chunks are recovered in order by splitting the context at newlines |
| GeminiService.GenerateAnswerFromContext | app/services/gemini_service.py:134-179 | the stripped reply, with no boundary whitespace; a failing call gives "Error generating response: " and the error, never an exception |
| GeminiService.AnswerKeepsReplyWords | app/services/gemini_service.py:177 | stripping keeps the words of the reply |
| Security.GetApiKey | app/core/security.py:7-31 | an accepted header yields exactly the configured key; every refusal has status 403 or 401; an absent header is refused with 403 and the "key is required" text |
| Security.PartitionOfHeader | app/core/security.py:17-18 | partition at the first space accepts exactly "Bearer" in any case, one space and a non-empty key, and that key is the rest |
| Security.MissingHeaderIsForbidden | app/core/security.py:9-13 | a missing or empty header is refused with 403 and the "key required" detail |
| Security.MalformedHeaderIsForbidden | app/core/security.py:16-24 | a present header not of the form "Bearer <key>" is refused with 403 and the format detail whatever the configured key, never with 401 |
| Security.WrongKeyIsUnauthorized | app/core/security.py:26-30 | a well-formed header with another key is refused with 401 "Invalid API Key" |
| Security.AcceptsExactlyTheConfiguredKey | app/core/security.py:7-31 | the check passes exactly for well-formed headers carrying the configured key, and returns that key |
| Security.RefusalStatus | app/core/security.py:7-30 | every refusal is 401 or 403, and 401 exactly for a well-formed header with the wrong key |
| PolicyEvalPipeline.RenderField | app/services/policy_eval_pipeline.py:26 | a field renders as its name with underscores turned to spaces, " is ", and its value |
| PolicyEvalPipeline.RenderedFields | app/services/policy_eval_pipeline.py:26 | nothing is rendered exactly when every field is None |
| PolicyEvalPipeline.RenderedFieldsMembers | app/services/policy_eval_pipeline.py:26 | every field with a value is rendered, False and 0 included, and nothing else is |
| PolicyEvalPipeline.RenderedFieldsAppend | app/services/policy_eval_pipeline.py:26 | rendering keeps field order |
| PolicyEvalPipeline.StructuredTextEmpty | app/services/policy_eval_pipeline.py:26-28 | the structured text is empty exactly when no field has a value |
| PolicyEvalPipeline.CombineQuery | app/services/policy_eval_pipeline.py:18-33 | a combined query is never empty, and a non-empty raw text always yields one that starts with it |
| PolicyEvalPipeline.CombineQueryCases | app/services/policy_eval_pipeline.py:18-33 | the combined query is the raw text, the structured text, or both joined by ". "; None exactly when neither is present |
| PolicyEvalPipeline.CollectChunks | app/services/policy_eval_pipeline.py:45-54 | the document loop collects every document's chunks in order and skips a document whose processing raises |
| PolicyEvalPipeline.AllChunksAppend | app/services/policy_eval_pipeline.py:46-50 | the chunks of two document runs concatenate |
| PolicyEvalPipeline.DocumentContribution | app/services/policy_eval_pipeline.py:47-54 | each document contributes its own chunks in place, and a failing one contributes nothing |
| PolicyEvalPipeline.AllChunksSingle | app/services/policy_eval_pipeline.py:49-50 | one document contributes its chunks, or none when it fails |
| PolicyEvalPipeline.Prepare | app/services/policy_eval_pipeline.py:11-62 | every request that reaches indexing has 768-wide embeddings |
| PolicyEvalPipeline.PrepareRequest | app/services/policy_eval_pipeline.py:11-62 | the steps up to add_documents end with the missing-input, no-query or no-content record, an exception, or the indexed entries |
| PolicyEvalPipeline.QueryEmbedding | app/services/policy_eval_pipeline.py:65-66 | a failing embedding call raises its error; otherwise the query vector is the model's, and 768 wide whenever the index is non-empty |
| PolicyEvalPipeline.Conclude | app/services/policy_eval_pipeline.py:69-82 | a failing clause analysis raises its error; a returned decision means analysis and decision both succeeded and the decision is a dict |
| PolicyEvalPipeline.RetrieveAndConclude | app/services/policy_eval_pipeline.py:64-82 | the awaited query embedding selects the top five chunks, which are analysed and decided on; a failing call raises |
| PolicyEvalPipeline.ProcessRequest | app/services/policy_eval_pipeline.py:7-86 | process_request with the awaits in place: the early records, re-raised exceptions, or the decision for the five nearest clauses |
| PolicyEvalPipeline.MissingInputIsReported | app/services/policy_eval_pipeline.py:14-15 | no query or no documents gives the missing-input record before any service is used |
| PolicyEvalPipeline.EmptyQueryIsReported | app/services/policy_eval_pipeline.py:30-31 | no raw text and no structured value gives the no-query record before any service is used |
| PolicyEvalPipeline.NoContentIsReported | app/services/policy_eval_pipeline.py:56-57 | when every document fails or is empty, the no-content record is returned and nothing is embedded |
| PolicyEvalPipeline.NoChunksAnywhere | app/services/policy_eval_pipeline.py:45-56 | documents that contribute nothing give no chunks |
| PolicyEvalPipeline.IndexedEntriesPairChunks | app/services/policy_eval_pipeline.py:42-62 | entities come from the combined query, and entry i pairs collected chunk i with batch embedding i |
| PolicyEvalPipeline.AtMostFiveClauses | app/services/policy_eval_pipeline.py:66-67 | at most five clauses reach the analysis, nearest first |
| PolicyEvalPipeline.DecisionCarriesEntitiesAndAnalysis | app/services/policy_eval_pipeline.py:79-82 | a returned decision carries the entities and the analysis |
| PolicyEvalPipeline.ConcludeAsWritten | app/services/policy_eval_pipeline.py:65-80 | with the un-awaited calls, the steps after indexing always raise |
| PolicyEvalPipeline.ProcessRequestAsWritten | app/services/policy_eval_pipeline.py:11-86 | as written, a request that ends before indexing ends as `Prepare` says, and one that reaches indexing always raises |
| PolicyEvalPipeline.AsWrittenNeverDecides | app/services/policy_eval_pipeline.py:65-76 | as written, every returned dict is one of three error records and every indexed request raises |
| PolicyEvalPipeline.AwaitedPipelineDecides | app/services/policy_eval_pipeline.py:65-82 | with the awaits, a dict decision is returned merged, where the as-written code raises |
| QAService.FileNameFromUrl | app/services/qa_service.py:18 | the file name holds no `/` and no `?` |
| QAService.FileNameIsLastSegment | app/services/qa_service.py:18 | the file name is the last path segment up to its first `?` |
| QAService.PrepareIndex | app/services/qa_service.py:20-28 | an indexed document has 768-wide embeddings |
| QAService.IndexDocument | app/services/qa_service.py:16-28 | processing raises through, no text raises the no-text error, and otherwise the chunks are embedded and paired |
| QAService.QuestionEmbedding | app/services/qa_service.py:41-42 | a failing embedding call raises its error; otherwise the question vector is the model's, and 768 wide whenever the index is non-empty |
| QAService.FirstFailureIsFirstError | app/services/qa_service.py:31-35 | no failure exactly when every question embeds; otherwise the failure is the error of the first question, in order, whose embedding fails |
| QAService.FirstFailureAppend | app/services/qa_service.py:31-35 | the first failing question of a concatenation is the first of the first part, else of the second |
| QAService.AnswerSingleQuestion | app/services/qa_service.py:38-47 | a failing question embedding raises; otherwise the answer is generated from the five chunks nearest the question |
| QAService.AllAnsweredAppend | app/services/qa_service.py:30-35 | answering one more question from its own retrieval extends the answered prefix by that question, answer and retrieval |
| QAService.AnswerAll | app/services/qa_service.py:30-36 | one answer per question, in order, each from its own retrieval; exactly a failing question embedding makes it raise, with the first failure's error |
| QAService.AnswerQuestions | app/services/qa_service.py:12-36 | answer_questions: the indexing error, or the first question failure, or every question answered from its own five nearest chunks |
| QAService.NoTextFailsBeforeEmbedding | app/services/qa_service.py:22-23 | a document without text raises the no-text error whatever the model does |
| QAService.IndexHoldsChunksInOrder | app/services/qa_service.py:26-28 | the store holds the chunks in order, chunk i with batch embedding i |
| QAService.AnswerUsesAtMostFiveChunks | app/services/qa_service.py:42-43 | an answer is generated from at most five chunks, nearest first |
| QAService.NoQuestionsNoFailure | app/services/qa_service.py:32-35 | no question means no failure |
| Evaluation.BuildJustifications | app/api/endpoints/evaluation.py:31-42 | the justification loop agrees with the specification: one per item of a list, nothing for a non-list, the error of a non-dict item |
| Evaluation.PrependTwice | app/api/endpoints/evaluation.py:34-35 | appending justifications one at a time keeps their order |
| Evaluation.EvaluatePolicy | app/api/endpoints/evaluation.py:22-89 | the response is the mapping of the pipeline's outcome, a pipeline exception becoming a DocumentProcessingError |
| Evaluation.JustificationFrom | app/api/endpoints/evaluation.py:35-42 | every justification carries the placeholder source, and an empty dict gives all the default fields |
| Evaluation.ResponseFor | app/api/endpoints/evaluation.py:45-90 | the response holds the given justifications, counts them, reports the request's documents with no failures, and carries an error exactly when the result has one |
| Evaluation.Respond | app/api/endpoints/evaluation.py:22-90 | a pipeline exception becomes a DocumentProcessingError with its message; a returned result gives a response exactly when its analysis yields justifications, and the response carries them |
| Evaluation.OneJustificationPerItem | app/api/endpoints/evaluation.py:33-42 | a list of dicts gives exactly one justification per item in item order, and only lists of dicts succeed |
| Evaluation.FirstNonDictRaises | app/api/endpoints/evaluation.py:34-36 | the first item that is not a dict raises "'<type>' object has no attribute 'get'" |
| Evaluation.JustificationFieldDefaults | app/api/endpoints/evaluation.py:36-41 | present fields are copied even when null; missing ones default to "N/A", "No reasoning provided.", [], 0.0 and "general"; the source is the placeholder |
| Evaluation.NonListAnalysisHasNoJustifications | app/api/endpoints/evaluation.py:31-33 | a missing or non-list analysis gives no justification and zero clauses evaluated |
| Evaluation.ResponseCounters | app/api/endpoints/evaluation.py:79-81 | documents processed is the request's document count, none failed, and clauses evaluated is the justification count (the item count of a list analysis) |
| Evaluation.DecisionDefaults | app/api/endpoints/evaluation.py:49-86 | missing decision fields default to "requires_review", 0.5, 0 and 0 tokens; the risk level, currency, maximum and model name are fixed |
| Evaluation.ErrorRecordIsForwarded | app/api/endpoints/evaluation.py:49-89 | an error record is forwarded in `error` with the defaulted decision and no justification |
| Evaluation.PipelineExceptionIsProcessingError | app/api/endpoints/evaluation.py:25-26 | a pipeline exception becomes a 500 DOCUMENT_PROCESSING_FAILED error carrying its message |
| Evaluation.NoDocumentsResponse | app/api/endpoints/evaluation.py:22-89 | a request without documents is answered with the missing-input error, zero documents processed |
| Evaluation.AsWrittenEndpointNeverDecides | app/api/endpoints/evaluation.py:22-89 | with the pipeline as written, the endpoint answers only error records with the default decision, or raises |

## Left out

- Fetching, base64 decoding and the PDF, DOCX and UTF-8 readers are abstract functions. Their failures are exception strings, and their formats and messages are not modelled.
- The Gemini generation and embedding calls and `json.loads` are abstract functions. The prompt texts are not modelled, and neither are the decision rules they ask the model to follow: nothing in the code enforces those rules. The embedding endpoint's task type for the batch calls is not distinguished.
- `GeminiPolicyProcessor.__init__` is modelled only as the ValueError `GEMINI_API_KEY not found in environment variables.` raised while the services are set up (app/services/policy_eval_pipeline.py:37), before the try block at line 40, when the key is unset. Because the handler at lines 83-86 re-raises, the caller sees the same exception either way. The model name and `genai.configure` are left out.
- `asyncio.gather` concurrency is a sequential map in question order. When several question embeddings fail, the model picks the first in order, whereas the service may surface whichever fails first in time.
- Embeddings are vectors of reals, not float32. Distances are exact squared L2 distances.
- FAISS's order among equal distances is not promised.
- JSON objects are maps, so the insertion order of a dict's keys is not modelled. The `json.dumps` calls that build the prompts depend on that order; the prompts are abstract, so no stated property depends on it.
- `lower()` is ASCII-only. This is exact for the comparisons with "bearer", "pdf" and "docx" but not for other scripts.
- Whitespace is Python's `str.isspace` set, used alike for `strip`, `split` and `\s`.
- FAISS rejects vectors of the wrong width with an assertion whose text is not modelled. The model calls it `DIMENSION_MISMATCH` (the empty string). The callers raise it for a batch or query embedding whose width is not 768, as FAISS would, before calling the store.
- numpy's refusal of ragged embedding lists is folded into the same width check.
- VectorStore.VectorStoreService.AddDocuments: requires every embedding to have the store's dimension, because FAISS raises otherwise. The callers check that first.
- VectorStore.VectorStoreService.Search: requires `topK > 0`, because FAISS rejects k ≤ 0. The callers always pass 5.
- VectorStore.VectorStoreService.Search: requires the query width to match the store when the index is non-empty, because FAISS raises otherwise. The callers check that first.
- The request id, timestamp, processing time, logging and tracebacks are left out. So are the constant placeholder blocks of the evaluation response: breakdown, waiting period, fraud analysis and warnings.
- The pydantic validation of `EvaluationResponse` is not modelled: enum literals, float and int coercion, and the list item schemas of risk factors and recommendations. For example, an error record's string `error` does not fit the schema's `Optional[Dict]`. The model returns the response data before validation.
- The exception handler's JSON rendering and FastAPI's generic 500 answer for an unhandled AttributeError are transport, so they are left out.
- The evaluation router is commented out in app/main.py:12. The endpoint is modelled all the same.
- The hackrx and health endpoints, the schemas and the configuration loading are not part of this model.
- Pydantic's request validation guarantees that a query is present. The model still covers an absent query (`PipelineRequest.query` is an Option), because process_request checks for it.

## Findings

| source | as written | input that shows it | evidently intended | confidence | as-written member | corrected member |
|---|---|---|---|---|---|---|
| app/services/policy_eval_pipeline.py:65-76 | `generate_embeddings` and `final_decision_reasoning` are called without `await`, so both results are coroutines; the search turns the coroutine into a float and raises TypeError, and with an empty index the item assignment on the decision coroutine raises | any request that reaches indexing, e.g. one document with one chunk and a 768-wide embedding | await both calls, so that the query embedding is searched and the decision dict is returned with the entities and the analysis merged in | not executed | PolicyEvalPipeline.AsWrittenNeverDecides | PolicyEvalPipeline.AwaitedPipelineDecides |
