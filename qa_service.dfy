/** QAService.answer_questions: chunk the document behind a URL, index the
    chunks once, and answer every question from the five chunks nearest to
    it. The per-question answers, gathered concurrently in the service, are
    produced here one after the other in question order. */
module QAService {
  import opened Wrappers
  import opened Text
  import opened DocumentProcessor
  import opened VectorStore
  import opened GeminiService

  const EMBEDDING_DIMENSION: nat := 768
  const TOP_K: nat := 5
  const NO_TEXT: string := "Could not extract any text from the document."

  // ----------------------------------------------------------- the document

  /** documents.split('/')[-1].split('?')[0]. */
  function FileNameFromUrl(url: string): (name: string)
    ensures '/' !in name && '?' !in name
  {
    BeforeFirst(AfterLast(url, '/'), '?')
  }

  /** The last path segment starts at i. */
  predicate LastSegmentAt(url: string, i: nat)
  {
    i <= |url| && (i == 0 || url[i - 1] == '/') && '/' !in url[i..]
  }

  /** `name` is `segment` up to its first '?'. */
  predicate CutAtQuery(segment: string, name: string)
  {
    StartsWith(segment, name) && '?' !in name && (|name| < |segment| ==> segment[|name|] == '?')
  }

  /** The file name is the start of the last path segment, up to the first
      '?' of that segment (or all of it). */
  lemma FileNameIsLastSegment(url: string)
    ensures exists i: nat :: LastSegmentAt(url, i) && CutAtQuery(url[i..], FileNameFromUrl(url))
  {
    var segment := AfterLast(url, '/');
    if '/' in url {
      var i :| 0 <= i < |url| && url[i] == '/' && segment == url[i + 1..];
      assert url[(i + 1) - 1] == '/';
    } else {
      assert url[0..] == url;
    }
  }

  /** The document dict built from the request: the URL as content and the
      derived file name in the metadata. */
  function QADocument(url: string): Document
  {
    Document(url, map["filename" := FileNameFromUrl(url)])
  }

  // ----------------------------------------------------------- indexing

  /** Where answer_questions stands once the chunks are indexed, or the
      exception that ended it before. */
  datatype Indexing = IndexFailed(error: string) | IndexReady(entries: seq<IndexEntry>)

  /** Process the document (an exception propagates), refuse an empty chunk
      list, embed the chunks in one batch and pair them up. */
  function PrepareIndex(url: string, g: Gemini, reader: DocumentReader): (r: Indexing)
    ensures r.IndexReady? ==> SameDimension(Embeddings(r.entries), EMBEDDING_DIMENSION)
  {
    match DocumentChunks(QADocument(url), reader)
    case Err(e) => IndexFailed(e)
    case Ok(chunks) =>
      if chunks == [] then IndexFailed(NO_TEXT)
      else match g.embedBatch(chunks)
      case Err(e) => IndexFailed(e)
      case Ok(embeddings) =>
        var entries := PairEntries(chunks, embeddings);
        if !SameDimension(Embeddings(entries), EMBEDDING_DIMENSION) then IndexFailed(DIMENSION_MISMATCH)
        else IndexReady(entries)
  }

  // ----------------------------------------------------------- answering

  /** The awaited question embedding, with FAISS's width check when the index
      is not empty. */
  function QuestionEmbedding(g: Gemini, question: string, entries: seq<IndexEntry>): (r: Result<Vector, string>)
    ensures g.embed(question, RetrievalQuery).Err? ==> r == Err(g.embed(question, RetrievalQuery).error)
    ensures r.Ok? ==> r.value == g.embed(question, RetrievalQuery).value
    ensures r.Ok? && |entries| > 0 ==> |r.value| == EMBEDDING_DIMENSION
  {
    match g.embed(question, RetrievalQuery)
    case Err(e) => Err(e)
    case Ok(q) => if |entries| > 0 && |q| != EMBEDDING_DIMENSION then Err(DIMENSION_MISMATCH) else Ok(q)
  }

  /** The error of the first question, in order, whose embedding fails. */
  function FirstFailure(g: Gemini, questions: seq<string>, entries: seq<IndexEntry>): Option<string>
  {
    if questions == [] then None
    else match QuestionEmbedding(g, questions[0], entries)
      case Err(e) => Some(e)
      case Ok(_) => FirstFailure(g, questions[1..], entries)
  }

  /** No failure exactly when every question embeds; otherwise the failure is
      the error of a question all of whose predecessors embed. */
  lemma {:induction false} FirstFailureIsFirstError(g: Gemini, questions: seq<string>, entries: seq<IndexEntry>)
    ensures FirstFailure(g, questions, entries).None? <==>
      forall i :: 0 <= i < |questions| ==> QuestionEmbedding(g, questions[i], entries).Ok?
    ensures FirstFailure(g, questions, entries).Some? ==>
      exists i :: 0 <= i < |questions| && QuestionEmbedding(g, questions[i], entries) == Err(FirstFailure(g, questions, entries).value)
        && forall j :: 0 <= j < i ==> QuestionEmbedding(g, questions[j], entries).Ok?
  {
    if questions != [] && QuestionEmbedding(g, questions[0], entries).Ok? {
      var tail := questions[1..];
      assert forall i :: 0 <= i < |tail| ==> tail[i] == questions[i + 1];
      FirstFailureIsFirstError(g, tail, entries);
      if FirstFailure(g, tail, entries).Some? {
        var i :| 0 <= i < |tail| && QuestionEmbedding(g, tail[i], entries) == Err(FirstFailure(g, tail, entries).value)
          && forall j :: 0 <= j < i ==> QuestionEmbedding(g, tail[j], entries).Ok?;
        assert QuestionEmbedding(g, questions[i + 1], entries) == Err(FirstFailure(g, questions, entries).value);
        assert forall j :: 0 <= j < i + 1 ==> QuestionEmbedding(g, questions[j], entries).Ok? by {
          forall j | 0 <= j < i + 1 ensures QuestionEmbedding(g, questions[j], entries).Ok? {
            if j > 0 { assert questions[j] == tail[j - 1]; }
          }
        }
      } else {
        forall i | 0 <= i < |questions| ensures QuestionEmbedding(g, questions[i], entries).Ok? {
          if i > 0 { assert questions[i] == tail[i - 1]; }
        }
      }
    } else if questions != [] {
      assert QuestionEmbedding(g, questions[0], entries) == Err(FirstFailure(g, questions, entries).value);
    }
  }

  lemma {:induction false} FirstFailureAppend(g: Gemini, a: seq<string>, b: seq<string>, entries: seq<IndexEntry>)
    ensures FirstFailure(g, a + b, entries) ==
      if FirstFailure(g, a, entries).Some? then FirstFailure(g, a, entries) else FirstFailure(g, b, entries)
  {
    if a == [] {
      assert a + b == b;
    } else {
      assert (a + b)[0] == a[0] && (a + b)[1..] == a[1..] + b;
      FirstFailureAppend(g, a[1..], b, entries);
    }
  }

  /** `answer` is what the model says about `question` given the five chunks
      `ids` nearest to the question's embedding. */
  ghost predicate AnsweredFrom(g: Gemini, question: string, entries: seq<IndexEntry>, answer: string, ids: seq<nat>)
  {
    && QuestionEmbedding(g, question, entries).Ok?
    && Retrieved(entries, QuestionEmbedding(g, question, entries).value, TOP_K, ids)
    && answer == GenerateAnswerFromContext(g, question, TextsAt(entries, ids))
  }

  /** Every question is answered from its own retrieval, in question order. */
  ghost predicate AllAnswered(g: Gemini, questions: seq<string>, entries: seq<IndexEntry>, answers: seq<string>, retrieved: seq<seq<nat>>)
  {
    && |answers| == |questions| == |retrieved|
    && forall i :: 0 <= i < |questions| ==> AnsweredFrom(g, questions[i], entries, answers[i], retrieved[i])
  }

  lemma AllAnsweredAppend(g: Gemini, questions: seq<string>, entries: seq<IndexEntry>, answers: seq<string>, retrieved: seq<seq<nat>>,
                          question: string, answer: string, ids: seq<nat>)
    requires AllAnswered(g, questions, entries, answers, retrieved)
    requires AnsweredFrom(g, question, entries, answer, ids)
    ensures AllAnswered(g, questions + [question], entries, answers + [answer], retrieved + [ids])
  {
    var qs, ans, rs := questions + [question], answers + [answer], retrieved + [ids];
    forall i | 0 <= i < |qs|
      ensures AnsweredFrom(g, qs[i], entries, ans[i], rs[i])
    {
      if i < |questions| {
        assert qs[i] == questions[i] && ans[i] == answers[i] && rs[i] == retrieved[i];
      }
    }
  }

  /** _answer_single_question: embed the question (a failure propagates),
      search the store for five chunks, and answer from their texts. */
  method AnswerSingleQuestion(store: VectorStoreService, question: string, g: Gemini, ghost entries: seq<IndexEntry>)
    returns (r: Result<string, string>, ghost ids: seq<nat>)
    requires store.Valid() && store.dimension == EMBEDDING_DIMENSION
    requires store.documentChunks == Texts(entries) && store.index == Embeddings(entries)
    ensures QuestionEmbedding(g, question, entries).Err? ==> r == Err(QuestionEmbedding(g, question, entries).error)
    ensures QuestionEmbedding(g, question, entries).Ok? ==> r.Ok? && AnsweredFrom(g, question, entries, r.value, ids)
  {
    ids := [];
    var embedding := g.embed(question, RetrievalQuery);
    if embedding.Err? {
      return Err(embedding.error), [];
    }
    if |store.index| > 0 && |embedding.value| != EMBEDDING_DIMENSION {
      return Err(DIMENSION_MISMATCH), [];
    }
    var results;
    results, ids := store.Search(embedding.value, TOP_K);
    var relevant := seq(|results|, j requires 0 <= j < |results| => results[j].text);
    assert relevant == TextsAt(entries, ids);
    r := Ok(GenerateAnswerFromContext(g, question, relevant));
  }

  /** The document processing and indexing steps. */
  method IndexDocument(url: string, g: Gemini, reader: DocumentReader) returns (r: Indexing)
    ensures r == PrepareIndex(url, g, reader)
  {
    var chunks := ProcessDocument(QADocument(url), reader);
    if chunks.Err? {
      return IndexFailed(chunks.error);
    }
    if |chunks.value| == 0 {
      return IndexFailed(NO_TEXT);
    }
    var embeddings := g.embedBatch(chunks.value);
    if embeddings.Err? {
      return IndexFailed(embeddings.error);
    }
    var entries := PairEntries(chunks.value, embeddings.value);
    if !SameDimension(Embeddings(entries), EMBEDDING_DIMENSION) {
      return IndexFailed(DIMENSION_MISMATCH);
    }
    r := IndexReady(entries);
  }

  /** The question loop over one store: stop at the first failing question. */
  method AnswerAll(store: VectorStoreService, questions: seq<string>, g: Gemini, ghost entries: seq<IndexEntry>)
    returns (r: Result<seq<string>, string>, ghost retrieved: seq<seq<nat>>)
    requires store.Valid() && store.dimension == EMBEDDING_DIMENSION
    requires store.documentChunks == Texts(entries) && store.index == Embeddings(entries)
    ensures r.Err? <==> FirstFailure(g, questions, entries).Some?
    ensures r.Err? ==> r.error == FirstFailure(g, questions, entries).value
    ensures r.Ok? ==> AllAnswered(g, questions, entries, r.value, retrieved)
  {
    retrieved := [];
    var answers: seq<string> := [];
    for i := 0 to |questions|
      invariant FirstFailure(g, questions[i..], entries) == FirstFailure(g, questions, entries)
      invariant AllAnswered(g, questions[..i], entries, answers, retrieved)
    {
      assert questions[i..][0] == questions[i] && questions[i..][1..] == questions[i + 1..];
      var answer, ids := AnswerSingleQuestion(store, questions[i], g, entries);
      if answer.Err? {
        return Err(answer.error), [];
      }
      AllAnsweredAppend(g, questions[..i], entries, answers, retrieved, questions[i], answer.value, ids);
      assert questions[..i] + [questions[i]] == questions[..i + 1];
      answers := answers + [answer.value];
      retrieved := retrieved + [ids];
    }
    assert questions[|questions|..] == [];
    assert questions[..|questions|] == questions;
    r := Ok(answers);
  }

  /** answer_questions: one answer per question, in question order, each from
      its own retrieval over the one store built from the document. */
  method AnswerQuestions(url: string, questions: seq<string>, g: Gemini, reader: DocumentReader)
    returns (r: Result<seq<string>, string>, ghost retrieved: seq<seq<nat>>)
    ensures PrepareIndex(url, g, reader).IndexFailed? ==> r == Err(PrepareIndex(url, g, reader).error)
    ensures PrepareIndex(url, g, reader).IndexReady? ==>
      var entries := PrepareIndex(url, g, reader).entries;
      && (r.Err? <==> FirstFailure(g, questions, entries).Some?)
      && (r.Err? ==> r.error == FirstFailure(g, questions, entries).value)
      && (r.Ok? ==> AllAnswered(g, questions, entries, r.value, retrieved))
  {
    var indexing := IndexDocument(url, g, reader);
    if indexing.IndexFailed? {
      return Err(indexing.error), [];
    }
    var store := StoreOf(EMBEDDING_DIMENSION, indexing.entries);
    r, retrieved := AnswerAll(store, questions, g, indexing.entries);
  }

  // ---------------------------------------------------------- properties

  /** A document without text raises before any embedding is requested: the
      outcome does not depend on the model. */
  lemma NoTextFailsBeforeEmbedding(url: string, g1: Gemini, g2: Gemini, reader: DocumentReader)
    requires DocumentChunks(QADocument(url), reader) == Ok([])
    ensures PrepareIndex(url, g1, reader) == PrepareIndex(url, g2, reader) == IndexFailed(NO_TEXT)
  {
  }

  /** The store holds the document's chunks in chunk order, chunk i with
      batch embedding i. */
  lemma IndexHoldsChunksInOrder(url: string, g: Gemini, reader: DocumentReader)
    requires PrepareIndex(url, g, reader).IndexReady?
    ensures var chunks := DocumentChunks(QADocument(url), reader);
      var entries := PrepareIndex(url, g, reader).entries;
      && chunks.Ok? && chunks.value != [] && g.embedBatch(chunks.value).Ok?
      && |entries| == Min(|chunks.value|, |g.embedBatch(chunks.value).value|)
      && forall i :: 0 <= i < |entries| ==>
           entries[i] == IndexEntry(chunks.value[i], g.embedBatch(chunks.value).value[i])
  {
    var chunks := DocumentChunks(QADocument(url), reader).value;
    var embeddings := g.embedBatch(chunks).value;
    var entries := PrepareIndex(url, g, reader).entries;
    forall i | 0 <= i < |entries|
      ensures entries[i] == IndexEntry(chunks[i], embeddings[i])
    {
      assert Texts(entries)[i] == chunks[i];
      assert Embeddings(entries)[i] == embeddings[i];
    }
  }

  /** An answer is generated from at most five chunks, the nearest first. */
  lemma AnswerUsesAtMostFiveChunks(g: Gemini, question: string, entries: seq<IndexEntry>, answer: string, ids: seq<nat>)
    requires AnsweredFrom(g, question, entries, answer, ids)
    ensures |ids| == Min(|entries|, TOP_K) <= 5
    ensures forall a, b :: 0 <= a < b < |ids| ==>
      var q := QuestionEmbedding(g, question, entries).value;
      SqDist(q, entries[ids[a]].embedding) <= SqDist(q, entries[ids[b]].embedding)
  {
  }

  /** No question, no answer: an empty question list gives [] once the
      document is indexed. */
  lemma NoQuestionsNoFailure(g: Gemini, entries: seq<IndexEntry>)
    ensures FirstFailure(g, [], entries).None?
  {
  }
}
