/** PolicyEvalPipeline.process_request: combine the query, extract its
    entities, chunk every document, index the chunks, retrieve the five
    nearest to the query and let the model analyse them and decide. */
module PolicyEvalPipeline {
  import opened Wrappers
  import opened Text
  import opened Json
  import opened DocumentProcessor
  import opened VectorStore
  import opened GeminiService

  const EMBEDDING_DIMENSION: nat := 768
  const TOP_K: nat := 5

  const MISSING_INPUT: string := "Query and documents must be provided."
  const NO_QUERY: string := "A query must be provided in either raw_text or structured_data."
  const NO_CONTENT: string := "No content could be extracted from the provided documents."
  const NO_GEMINI_KEY: string := "GEMINI_API_KEY not found in environment variables."

  // ------------------------------------------------------------ request

  /** A structured query value: the optional int, str and bool fields. */
  datatype FieldValue = IntValue(i: int) | StrValue(s: string) | BoolValue(b: bool)

  /** The query dict: raw_text, and structured_data as its (name, value)
      items in field order. */
  datatype QueryData = QueryData(rawText: Option<string>, structured: Option<seq<(string, Option<FieldValue>)>>)

  /** request_data: `query` is None when missing or empty. */
  datatype PipelineRequest = PipelineRequest(query: Option<QueryData>, documents: seq<Document>)

  /** What process_request ends with: a returned dict or a raised exception. */
  datatype Outcome = Returned(result: map<string, Json>) | Raised(message: string)

  function ErrorRecord(message: string): map<string, Json>
  {
    map["error" := JStr(message)]
  }

  // ---------------------------------------------------- query combination

  /** str(v) of a field value. */
  function RenderValue(v: FieldValue): string
  {
    match v
    case IntValue(i) => IntToString(i)
    case StrValue(s) => s
    case BoolValue(b) => if b then "True" else "False"
  }

  /** f"{k.replace('_', ' ')} is {v}". */
  function RenderField(name: string, v: FieldValue): (r: string)
    ensures StartsWith(r, ReplaceChar(name, '_', ' ')) && '_' !in r[..|name|]
    ensures r == r[..|name|] + " is " + RenderValue(v)
    ensures |r| == |name| + 4 + |RenderValue(v)|
  {
    var head := ReplaceChar(name, '_', ' ');
    assert (head + " is " + RenderValue(v))[..|name|] == head;
    head + " is " + RenderValue(v)
  }

  /** The rendered fields whose value is not None, in field order. */
  function RenderedFields(fields: seq<(string, Option<FieldValue>)>): (r: seq<string>)
    ensures |r| <= |fields|
    ensures r == [] <==> forall i :: 0 <= i < |fields| ==> fields[i].1.None?
  {
    if fields == [] then []
    else
      var rest := RenderedFields(fields[1..]);
      assert forall i :: 1 <= i < |fields| ==> fields[i] == fields[1..][i - 1];
      match fields[0].1
      case None => rest
      case Some(v) => [RenderField(fields[0].0, v)] + rest
  }

  /** Every field with a value is rendered, False and 0 included, and nothing
      else is. */
  lemma {:induction false} RenderedFieldsMembers(fields: seq<(string, Option<FieldValue>)>)
    ensures forall i :: 0 <= i < |fields| && fields[i].1.Some? ==>
      RenderField(fields[i].0, fields[i].1.value) in RenderedFields(fields)
    ensures forall x :: x in RenderedFields(fields) ==>
      exists i :: 0 <= i < |fields| && fields[i].1.Some? && x == RenderField(fields[i].0, fields[i].1.value)
  {
    if fields != [] {
      RenderedFieldsMembers(fields[1..]);
      assert forall i :: 1 <= i < |fields| ==> fields[i] == fields[1..][i - 1];
      forall x | x in RenderedFields(fields)
        ensures exists i :: 0 <= i < |fields| && fields[i].1.Some? && x == RenderField(fields[i].0, fields[i].1.value)
      {
        if x in RenderedFields(fields[1..]) {
          var i :| 0 <= i < |fields[1..]| && fields[1..][i].1.Some? && x == RenderField(fields[1..][i].0, fields[1..][i].1.value);
          assert fields[i + 1] == fields[1..][i];
        }
      }
    }
  }

  /** Rendering keeps the order of the fields: it distributes over concatenation. */
  lemma {:induction false} RenderedFieldsAppend(a: seq<(string, Option<FieldValue>)>, b: seq<(string, Option<FieldValue>)>)
    ensures RenderedFields(a + b) == RenderedFields(a) + RenderedFields(b)
  {
    if a != [] {
      assert (a + b)[1..] == a[1..] + b;
      assert (a + b)[0] == a[0];
      RenderedFieldsAppend(a[1..], b);
      if a[0].1.Some? {
        ConcatAssoc([RenderField(a[0].0, a[0].1.value)], RenderedFields(a[1..]), RenderedFields(b));
      }
    } else {
      assert a + b == b;
    }
  }

  /** The structured part: the rendered fields joined by ", ". */
  function StructuredText(fields: seq<(string, Option<FieldValue>)>): string
  {
    Join(RenderedFields(fields), ", ")
  }

  predicate HasRawText(q: QueryData)
  {
    q.rawText.Some? && q.rawText.value != ""
  }

  predicate HasStructuredValue(q: QueryData)
  {
    q.structured.Some? && exists i :: 0 <= i < |q.structured.value| && q.structured.value[i].1.Some?
  }

  lemma StructuredTextEmpty(fields: seq<(string, Option<FieldValue>)>)
    ensures StructuredText(fields) == "" <==> forall i :: 0 <= i < |fields| ==> fields[i].1.None?
  {
    var parts := RenderedFields(fields);
    if parts != [] {
      JoinHead(parts, ", ");
      RenderedFieldsMembers(fields);
      assert parts[0] in parts;
      assert |parts[0]| > 0;
    }
  }

  /** The combined query: the raw text if non-empty, then the structured text
      if non-empty, joined by ". "; None when there is neither. */
  function CombineQuery(q: QueryData): (r: Option<string>)
    ensures r.Some? ==> r.value != ""
    ensures HasRawText(q) ==> r.Some? && StartsWith(r.value, q.rawText.value)
  {
    var raw := if HasRawText(q) then [q.rawText.value] else [];
    var structured :=
      if q.structured.Some? && |q.structured.value| > 0 && StructuredText(q.structured.value) != ""
      then [StructuredText(q.structured.value)] else [];
    var parts := raw + structured;
    if parts == [] then None else Some(Join(parts, ". "))
  }

  /** The four cases of the combination. */
  lemma CombineQueryCases(q: QueryData)
    ensures CombineQuery(q).None? <==> !HasRawText(q) && !HasStructuredValue(q)
    ensures HasRawText(q) && !HasStructuredValue(q) ==> CombineQuery(q) == Some(q.rawText.value)
    ensures !HasRawText(q) && HasStructuredValue(q) ==> CombineQuery(q) == Some(StructuredText(q.structured.value))
    ensures HasRawText(q) && HasStructuredValue(q) ==>
      CombineQuery(q) == Some(q.rawText.value + ". " + StructuredText(q.structured.value))
  {
    if q.structured.Some? {
      StructuredTextEmpty(q.structured.value);
    }
    if HasRawText(q) && HasStructuredValue(q) {
      var raw, structured := q.rawText.value, StructuredText(q.structured.value);
      assert [raw] + [structured] == [raw, structured];
      assert [raw, structured][1..] == [structured];
      assert Join([raw, structured], ". ") == raw + ". " + Join([structured], ". ");
    }
  }

  // ------------------------------------------------------- chunk collection

  /** The chunks a document contributes: none when processing raises. */
  function ChunksOrNone(doc: Document, reader: DocumentReader): seq<string>
  {
    match DocumentChunks(doc, reader)
    case Ok(chunks) => chunks
    case Err(_) => []
  }

  /** The chunks of every document, in document order. */
  function AllChunks(docs: seq<Document>, reader: DocumentReader): seq<string>
  {
    if docs == [] then []
    else AllChunks(docs[..|docs| - 1], reader) + ChunksOrNone(docs[|docs| - 1], reader)
  }

  /** The document loop: process each document, extend on success, skip the
      document when processing raises. */
  method CollectChunks(docs: seq<Document>, reader: DocumentReader) returns (all: seq<string>)
    ensures all == AllChunks(docs, reader)
  {
    all := [];
    for i := 0 to |docs|
      invariant all == AllChunks(docs[..i], reader)
    {
      var r := ProcessDocument(docs[i], reader);
      assert docs[..i + 1][..i] == docs[..i] && docs[..i + 1][i] == docs[i];
      assert AllChunks(docs[..i + 1], reader) == AllChunks(docs[..i], reader) + ChunksOrNone(docs[i], reader);
      if r.Ok? {
        all := all + r.value;
      } else {
        assert all + [] == all;
      }
    }
    assert docs[..|docs|] == docs;
  }

  lemma {:induction false} AllChunksAppend(a: seq<Document>, b: seq<Document>, reader: DocumentReader)
    ensures AllChunks(a + b, reader) == AllChunks(a, reader) + AllChunks(b, reader)
    decreases |b|
  {
    if b != [] {
      var b0 := b[..|b| - 1];
      assert (a + b)[..|a + b| - 1] == a + b0;
      assert (a + b)[|a + b| - 1] == b[|b| - 1];
      AllChunksAppend(a, b0, reader);
      ConcatAssoc(AllChunks(a, reader), AllChunks(b0, reader), ChunksOrNone(b[|b| - 1], reader));
    } else {
      assert a + b == a;
    }
  }

  /** Document i contributes its own chunks, between those of the documents
      before and after it; a document that raises contributes nothing. */
  lemma DocumentContribution(docs: seq<Document>, i: nat, reader: DocumentReader)
    requires i < |docs|
    ensures AllChunks(docs, reader) ==
      AllChunks(docs[..i], reader) + ChunksOrNone(docs[i], reader) + AllChunks(docs[i + 1..], reader)
    ensures DocumentChunks(docs[i], reader).Err? ==>
      AllChunks(docs, reader) == AllChunks(docs[..i], reader) + AllChunks(docs[i + 1..], reader)
  {
    var before, after := docs[..i], docs[i + 1..];
    assert docs == (before + [docs[i]]) + after;
    AllChunksAppend(before + [docs[i]], after, reader);
    AllChunksAppend(before, [docs[i]], reader);
    AllChunksSingle(docs[i], reader);
    var mid := ChunksOrNone(docs[i], reader);
    if DocumentChunks(docs[i], reader).Err? {
      assert mid == [];
      assert AllChunks(before, reader) + mid == AllChunks(before, reader);
    }
  }

  lemma AllChunksSingle(doc: Document, reader: DocumentReader)
    ensures AllChunks([doc], reader) == ChunksOrNone(doc, reader)
  {
    assert [doc][..0] == [];
  }

  // ---------------------------------------------------------- indexing

  /** The search the pipeline performs: the top five entries for the query. */
  ghost predicate TopFive(entries: seq<IndexEntry>, query: Vector, ids: seq<nat>)
  {
    Retrieved(entries, query, TOP_K, ids)
  }

  // ------------------------------------------------------- the stages

  /** Where the pipeline stands once the chunks are indexed, or how it ended
      before that. */
  datatype Stage =
    | Finished(outcome: Outcome)
    | Indexed(combined: string, entities: Json, entries: seq<IndexEntry>)

  /** Everything up to and including add_documents. */
  function Prepare(req: PipelineRequest, g: Gemini, reader: DocumentReader, geminiKeySet: bool): (s: Stage)
    ensures s.Indexed? ==> SameDimension(Embeddings(s.entries), EMBEDDING_DIMENSION)
  {
    if req.query.None? || req.documents == [] then Finished(Returned(ErrorRecord(MISSING_INPUT)))
    else match CombineQuery(req.query.value)
    case None => Finished(Returned(ErrorRecord(NO_QUERY)))
    case Some(combined) =>
      if !geminiKeySet then Finished(Raised(NO_GEMINI_KEY))
      else match ExtractEntities(g, combined)
      case Err(e) => Finished(Raised(e))
      case Ok(entities) =>
        var chunks := AllChunks(req.documents, reader);
        if chunks == [] then Finished(Returned(ErrorRecord(NO_CONTENT)))
        else match g.embedBatch(chunks)
        case Err(e) => Finished(Raised(e))
        case Ok(embeddings) =>
          var entries := PairEntries(chunks, embeddings);
          if !SameDimension(Embeddings(entries), EMBEDDING_DIMENSION) then Finished(Raised(DIMENSION_MISMATCH))
          else Indexed(combined, entities, entries)
  }

  /** The awaited query embedding, with FAISS's width check when the index is
      not empty. */
  function QueryEmbedding(g: Gemini, combined: string, entries: seq<IndexEntry>): (r: Result<Vector, string>)
    ensures g.embed(combined, RetrievalQuery).Err? ==> r == Err(g.embed(combined, RetrievalQuery).error)
    ensures r.Ok? ==> r.value == g.embed(combined, RetrievalQuery).value
    ensures r.Ok? && |entries| > 0 ==> |r.value| == EMBEDDING_DIMENSION
  {
    match g.embed(combined, RetrievalQuery)
    case Err(e) => Err(e)
    case Ok(q) => if |entries| > 0 && |q| != EMBEDDING_DIMENSION then Err(DIMENSION_MISMATCH) else Ok(q)
  }

  /** TypeError of `value['entities'] = ...` on a value that is not a dict. */
  function ItemAssignmentError(j: Json): string
  {
    if j.JArr? then "list indices must be integers or slices, not str"
    else "'" + TypeName(j) + "' object does not support item assignment"
  }

  /** Analysis of the retrieved clauses, the final decision, and the merge of
      entities and analysis into the decision dict. */
  function Conclude(g: Gemini, entities: Json, relevant: seq<string>): (r: Outcome)
    ensures AnalyzePolicyClauses(g, entities, relevant).Err? ==>
      r == Raised(AnalyzePolicyClauses(g, entities, relevant).error)
    ensures r.Returned? ==>
      && AnalyzePolicyClauses(g, entities, relevant).Ok?
      && FinalDecisionReasoning(g, entities, AnalyzePolicyClauses(g, entities, relevant).value).Ok?
      && FinalDecisionReasoning(g, entities, AnalyzePolicyClauses(g, entities, relevant).value).value.JObj?
  {
    match AnalyzePolicyClauses(g, entities, relevant)
    case Err(e) => Raised(e)
    case Ok(analyzed) =>
      match FinalDecisionReasoning(g, entities, analyzed)
      case Err(e) => Raised(e)
      case Ok(decision) =>
        if decision.JObj? then Returned(decision.fields["entities" := entities]["analysis" := analyzed])
        else Raised(ItemAssignmentError(decision))
  }

  /** The steps up to indexing, with the document loop. */
  method PrepareRequest(req: PipelineRequest, g: Gemini, reader: DocumentReader, geminiKeySet: bool)
    returns (st: Stage)
    ensures st == Prepare(req, g, reader, geminiKeySet)
  {
    if req.query.None? || |req.documents| == 0 {
      return Finished(Returned(ErrorRecord(MISSING_INPUT)));
    }
    var combined := CombineQuery(req.query.value);
    if combined.None? {
      return Finished(Returned(ErrorRecord(NO_QUERY)));
    }
    if !geminiKeySet {
      return Finished(Raised(NO_GEMINI_KEY));
    }
    var entities := ExtractEntities(g, combined.value);
    if entities.Err? {
      return Finished(Raised(entities.error));
    }
    var chunks := CollectChunks(req.documents, reader);
    if |chunks| == 0 {
      return Finished(Returned(ErrorRecord(NO_CONTENT)));
    }
    var embeddings := g.embedBatch(chunks);
    if embeddings.Err? {
      return Finished(Raised(embeddings.error));
    }
    var entries := PairEntries(chunks, embeddings.value);
    if !SameDimension(Embeddings(entries), EMBEDDING_DIMENSION) {
      return Finished(Raised(DIMENSION_MISMATCH));
    }
    st := Indexed(combined.value, entities.value, entries);
  }

  /** The steps after indexing, awaited: build the store, embed the query,
      take the top five and conclude. */
  method RetrieveAndConclude(g: Gemini, combined: string, entities: Json, entries: seq<IndexEntry>)
    returns (outcome: Outcome, ghost ids: seq<nat>)
    requires SameDimension(Embeddings(entries), EMBEDDING_DIMENSION)
    ensures QueryEmbedding(g, combined, entries).Err? ==> outcome == Raised(QueryEmbedding(g, combined, entries).error)
    ensures QueryEmbedding(g, combined, entries).Ok? ==>
      && TopFive(entries, QueryEmbedding(g, combined, entries).value, ids)
      && outcome == Conclude(g, entities, TextsAt(entries, ids))
  {
    ids := [];
    var store := StoreOf(EMBEDDING_DIMENSION, entries);
    var query := QueryEmbedding(g, combined, entries);
    if query.Err? {
      return Raised(query.error), [];
    }
    var results;
    results, ids := store.Search(query.value, TOP_K);
    var relevant := seq(|results|, j requires 0 <= j < |results| => results[j].text);
    assert relevant == TextsAt(entries, ids);
    outcome := Conclude(g, entities, relevant);
  }

  /** process_request, with the query embedding and the final decision
      awaited. */
  method ProcessRequest(req: PipelineRequest, g: Gemini, reader: DocumentReader, geminiKeySet: bool)
    returns (outcome: Outcome, ghost ids: seq<nat>)
    ensures Prepare(req, g, reader, geminiKeySet).Finished? ==> outcome == Prepare(req, g, reader, geminiKeySet).outcome
    ensures Prepare(req, g, reader, geminiKeySet).Indexed? ==>
      var st := Prepare(req, g, reader, geminiKeySet);
      var query := QueryEmbedding(g, st.combined, st.entries);
      && (query.Err? ==> outcome == Raised(query.error))
      && (query.Ok? ==>
            && TopFive(st.entries, query.value, ids)
            && outcome == Conclude(g, st.entities, TextsAt(st.entries, ids)))
  {
    var st := PrepareRequest(req, g, reader, geminiKeySet);
    if st.Finished? {
      return st.outcome, [];
    }
    outcome, ids := RetrieveAndConclude(g, st.combined, st.entities, st.entries);
  }

  // ---------------------------------------------------------- properties

  /** A missing query or an empty document list is answered with an error
      record before any service is used: the outcome is the same whatever the
      services do. */
  lemma MissingInputIsReported(req: PipelineRequest, g1: Gemini, g2: Gemini, r1: DocumentReader, r2: DocumentReader, k1: bool, k2: bool)
    requires req.query.None? || req.documents == []
    ensures Prepare(req, g1, r1, k1) == Prepare(req, g2, r2, k2) == Finished(Returned(ErrorRecord(MISSING_INPUT)))
  {
  }

  /** With no raw text and no non-None structured field, the result is the
      "query must be provided" record, again before any service is used. */
  lemma EmptyQueryIsReported(req: PipelineRequest, g1: Gemini, g2: Gemini, r1: DocumentReader, r2: DocumentReader, k1: bool, k2: bool)
    requires req.query.Some? && req.documents != []
    requires !HasRawText(req.query.value) && !HasStructuredValue(req.query.value)
    ensures Prepare(req, g1, r1, k1) == Prepare(req, g2, r2, k2) == Finished(Returned(ErrorRecord(NO_QUERY)))
  {
    CombineQueryCases(req.query.value);
  }

  /** When every document fails or yields no chunk, the "no content" record is
      returned and no embedding is requested. */
  lemma NoContentIsReported(req: PipelineRequest, g: Gemini, reader: DocumentReader)
    requires req.query.Some? && req.documents != [] && CombineQuery(req.query.value).Some?
    requires ExtractEntities(g, CombineQuery(req.query.value).value).Ok?
    requires forall i :: 0 <= i < |req.documents| ==> ChunksOrNone(req.documents[i], reader) == []
    ensures Prepare(req, g, reader, true) == Finished(Returned(ErrorRecord(NO_CONTENT)))
  {
    NoChunksAnywhere(req.documents, reader);
  }

  lemma {:induction false} NoChunksAnywhere(docs: seq<Document>, reader: DocumentReader)
    requires forall i :: 0 <= i < |docs| ==> ChunksOrNone(docs[i], reader) == []
    ensures AllChunks(docs, reader) == []
  {
    if docs != [] {
      NoChunksAnywhere(docs[..|docs| - 1], reader);
    }
  }

  /** What gets indexed: the combined query drives the entity extraction, and
      entry i pairs collected chunk i with batch embedding i, zip-truncated. */
  lemma IndexedEntriesPairChunks(req: PipelineRequest, g: Gemini, reader: DocumentReader, geminiKeySet: bool)
    requires Prepare(req, g, reader, geminiKeySet).Indexed?
    ensures var st := Prepare(req, g, reader, geminiKeySet);
      var chunks := AllChunks(req.documents, reader);
      && req.query.Some? && CombineQuery(req.query.value) == Some(st.combined)
      && ExtractEntities(g, st.combined) == Ok(st.entities)
      && g.embedBatch(chunks).Ok?
      && |st.entries| == Min(|chunks|, |g.embedBatch(chunks).value|)
      && forall i :: 0 <= i < |st.entries| ==>
           st.entries[i] == IndexEntry(chunks[i], g.embedBatch(chunks).value[i])
  {
    var st := Prepare(req, g, reader, geminiKeySet);
    var chunks := AllChunks(req.documents, reader);
    var embeddings := g.embedBatch(chunks).value;
    forall i | 0 <= i < |st.entries|
      ensures st.entries[i] == IndexEntry(chunks[i], embeddings[i])
    {
      assert Texts(st.entries)[i] == chunks[i];
      assert Embeddings(st.entries)[i] == embeddings[i];
    }
  }

  /** At most five clauses reach the analysis, in the order of the search. */
  lemma AtMostFiveClauses(entries: seq<IndexEntry>, query: Vector, ids: seq<nat>)
    requires TopFive(entries, query, ids)
    ensures |TextsAt(entries, ids)| == Min(|entries|, TOP_K) <= 5
    ensures forall a, b :: 0 <= a < b < |ids| ==>
      SqDist(query, entries[ids[a]].embedding) <= SqDist(query, entries[ids[b]].embedding)
  {
  }

  /** A dict decision is returned with the entities and the analysis added. */
  lemma DecisionCarriesEntitiesAndAnalysis(g: Gemini, entities: Json, relevant: seq<string>)
    requires Conclude(g, entities, relevant).Returned?
    ensures var r := Conclude(g, entities, relevant).result;
      && "entities" in r && r["entities"] == entities
      && "analysis" in r && AnalyzePolicyClauses(g, entities, relevant) == Ok(r["analysis"])
  {
  }

  // ----------------------------------------------- as written (finding)

  const COROUTINE_NOT_A_NUMBER: string := "float() argument must be a string or a real number, not 'coroutine'"
  const COROUTINE_NOT_ASSIGNABLE: string := "'coroutine' object does not support item assignment"

  /** The stages after indexing as the code reads: the query embedding and
      the final decision are coroutines that are never awaited. A non-empty
      index turns the coroutine into a float and raises; an empty one
      returns [] from search, and the item assignment on the final
      coroutine raises. */
  function ConcludeAsWritten(g: Gemini, entities: Json, entries: seq<IndexEntry>): (r: Outcome)
    ensures r.Raised?
  {
    if |entries| > 0 then Raised(COROUTINE_NOT_A_NUMBER)
    else match AnalyzePolicyClauses(g, entities, [])
      case Err(e) => Raised(e)
      case Ok(_) => Raised(COROUTINE_NOT_ASSIGNABLE)
  }

  function ProcessRequestAsWritten(req: PipelineRequest, g: Gemini, reader: DocumentReader, geminiKeySet: bool): (r: Outcome)
    ensures Prepare(req, g, reader, geminiKeySet).Finished? ==> r == Prepare(req, g, reader, geminiKeySet).outcome
    ensures Prepare(req, g, reader, geminiKeySet).Indexed? ==> r.Raised?
  {
    match Prepare(req, g, reader, geminiKeySet)
    case Finished(outcome) => outcome
    case Indexed(_, entities, entries) => ConcludeAsWritten(g, entities, entries)
  }

  /** As written, the pipeline never returns a decision: whatever the
      services answer, every returned dict is one of the three error records. */
  lemma AsWrittenNeverDecides(req: PipelineRequest, g: Gemini, reader: DocumentReader, geminiKeySet: bool)
    ensures ProcessRequestAsWritten(req, g, reader, geminiKeySet).Returned? ==>
      ProcessRequestAsWritten(req, g, reader, geminiKeySet).result in
        {ErrorRecord(MISSING_INPUT), ErrorRecord(NO_QUERY), ErrorRecord(NO_CONTENT)}
    ensures Prepare(req, g, reader, geminiKeySet).Indexed? ==>
      ProcessRequestAsWritten(req, g, reader, geminiKeySet).Raised?
  {
  }

  /** With the awaits in place a decision does come back: a dict decision for
      the retrieved clauses is returned, merged. */
  lemma AwaitedPipelineDecides(g: Gemini, entities: Json, relevant: seq<string>, analyzed: Json, decision: map<string, Json>)
    requires AnalyzePolicyClauses(g, entities, relevant) == Ok(analyzed)
    requires FinalDecisionReasoning(g, entities, analyzed) == Ok(JObj(decision))
    ensures Conclude(g, entities, relevant) == Returned(decision["entities" := entities]["analysis" := analyzed])
    ensures ConcludeAsWritten(g, entities, []).Raised?
  {
  }
}
