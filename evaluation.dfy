/** evaluate_policy: run the policy pipeline and map its result onto the
    evaluation response. The request id, timestamp and processing time are
    not modelled; the placeholder blocks of the response (breakdown, waiting
    period, fraud analysis) hold constants and are not modelled either. */
module Evaluation {
  import opened Wrappers
  import opened Json
  import opened DocumentProcessor
  import opened GeminiService
  import opened VectorStore
  import opened PolicyEvalPipeline

  // ------------------------------------------------------------ the errors

  const HTTP_500_INTERNAL_SERVER_ERROR: nat := 500
  const DOCUMENT_PROCESSING_FAILED: string := "DOCUMENT_PROCESSING_FAILED"

  /** What the endpoint raises: an APIException with its status, code and
      message, or an exception it does not catch. */
  datatype ApiError =
    | ApiException(status: nat, code: string, message: string)
    | Unhandled(message: string)

  /** DocumentProcessingError(message). */
  function DocumentProcessingError(message: string): ApiError
  {
    ApiException(HTTP_500_INTERNAL_SERVER_ERROR, DOCUMENT_PROCESSING_FAILED, message)
  }

  /** AttributeError of `item.get(...)` on a value that is not a dict. */
  function NoGetError(item: Json): string
  {
    "'" + TypeName(item) + "' object has no attribute 'get'"
  }

  // ----------------------------------------------------- the justifications

  /** The placeholder source every justification carries. */
  datatype JustificationSource = JustificationSource(document: string, page: int, section: string)

  const PLACEHOLDER_SOURCE: JustificationSource := JustificationSource("source_doc", 1, "Details")

  /** One justification: the values copied from a clause analysis item. */
  datatype Justification = Justification(
    clauseId: Json,
    text: Json,
    matchedCriteria: Json,
    confidence: Json,
    ruleType: Json,
    source: JustificationSource)

  const DEFAULT_CLAUSE_ID: Json := JStr("N/A")
  const DEFAULT_TEXT: Json := JStr("No reasoning provided.")
  const DEFAULT_MATCHED_CRITERIA: Json := JArr([])
  const DEFAULT_CONFIDENCE: Json := JFloat(0.0)
  const DEFAULT_RULE_TYPE: Json := JStr("general")

  /** The justification built from one analysis dict. */
  function JustificationFrom(item: map<string, Json>): (r: Justification)
    ensures r.source == PLACEHOLDER_SOURCE
    ensures item == map[] ==>
      r == Justification(DEFAULT_CLAUSE_ID, DEFAULT_TEXT, DEFAULT_MATCHED_CRITERIA, DEFAULT_CONFIDENCE, DEFAULT_RULE_TYPE, PLACEHOLDER_SOURCE)
  {
    Justification(
      GetOr(item, "clause_id", DEFAULT_CLAUSE_ID),
      GetOr(item, "reasoning", DEFAULT_TEXT),
      GetOr(item, "matched_criteria", DEFAULT_MATCHED_CRITERIA),
      GetOr(item, "relevance_score", DEFAULT_CONFIDENCE),
      GetOr(item, "clause_type", DEFAULT_RULE_TYPE),
      PLACEHOLDER_SOURCE)
  }

  /** The justifications of a list of analysis items, in order, or the
      AttributeError of the first item that is not a dict. */
  function JustifyAll(items: seq<Json>): Result<seq<Justification>, string>
  {
    if items == [] then Ok([])
    else if !items[0].JObj? then Err(NoGetError(items[0]))
    else Prepend([JustificationFrom(items[0].fields)], JustifyAll(items[1..]))
  }

  /** `done` followed by the rest, unless the rest failed. */
  function Prepend(done: seq<Justification>, rest: Result<seq<Justification>, string>): Result<seq<Justification>, string>
  {
    match rest
    case Ok(js) => Ok(done + js)
    case Err(e) => Err(e)
  }

  /** The justification list of a result's `analysis` value: items of a list,
      nothing for anything else. */
  function Justifications(analysis: Json): Result<seq<Justification>, string>
  {
    if analysis.JArr? then JustifyAll(analysis.items) else Ok([])
  }

  /** The loop appending one justification per analysis item. */
  method BuildJustifications(analysis: Json) returns (r: Result<seq<Justification>, string>)
    ensures r == Justifications(analysis)
  {
    if !analysis.JArr? {
      return Ok([]);
    }
    var items := analysis.items;
    var justifications: seq<Justification> := [];
    assert items[0..] == items;
    if JustifyAll(items).Ok? {
      assert [] + JustifyAll(items).value == JustifyAll(items).value;
    }
    for i := 0 to |items|
      invariant JustifyAll(items) == Prepend(justifications, JustifyAll(items[i..]))
    {
      assert items[i..][0] == items[i] && items[i..][1..] == items[i + 1..];
      if !items[i].JObj? {
        return Err(NoGetError(items[i]));
      }
      var next := JustificationFrom(items[i].fields);
      PrependTwice(justifications, next, JustifyAll(items[i + 1..]));
      justifications := justifications + [next];
    }
    assert items[|items|..] == [];
    assert justifications + [] == justifications;
    r := Ok(justifications);
  }

  lemma PrependTwice(done: seq<Justification>, next: Justification, rest: Result<seq<Justification>, string>)
    ensures Prepend(done, Prepend([next], rest)) == Prepend(done + [next], rest)
  {
    if rest.Ok? {
      assert done + ([next] + rest.value) == (done + [next]) + rest.value;
    }
  }

  // --------------------------------------------------------- the response

  datatype Decision = Decision(status: Json, confidenceScore: Json, riskLevel: string)

  datatype Coverage = Coverage(approvedAmount: Json, maximumEligible: int, currency: string)

  datatype ProcessingMetadata = ProcessingMetadata(
    documentsProcessed: nat,
    documentsFailed: nat,
    clausesEvaluated: nat,
    aiModel: string,
    modelVersion: string,
    businessRulesVersion: string,
    geminiTokensUsed: Json)

  /** The fields of the response that depend on the pipeline and the request. */
  datatype EvaluationResponse = EvaluationResponse(
    decision: Decision,
    coverage: Coverage,
    justification: seq<Justification>,
    riskFactors: Json,
    recommendations: Json,
    metadata: ProcessingMetadata,
    error: Option<Json>)

  const DEFAULT_STATUS: Json := JStr("requires_review")
  const DEFAULT_CONFIDENCE_SCORE: Json := JFloat(0.5)
  const DEFAULT_APPROVED_AMOUNT: Json := JInt(0)
  const DEFAULT_TOKENS: Json := JInt(0)
  const RISK_LEVEL: string := "medium"
  const CURRENCY: string := "INR"
  const AI_MODEL: string := "gemini-1.5-flash-latest"

  /** response_data for a returned result with its justifications. */
  function ResponseFor(result: map<string, Json>, justification: seq<Justification>, documentCount: nat): (r: EvaluationResponse)
    ensures r.justification == justification && r.metadata.clausesEvaluated == |justification|
    ensures r.metadata.documentsProcessed == documentCount && r.metadata.documentsFailed == 0
    ensures r.error.Some? <==> "error" in result
  {
    EvaluationResponse(
      Decision(GetOr(result, "decision", DEFAULT_STATUS), GetOr(result, "confidence_score", DEFAULT_CONFIDENCE_SCORE), RISK_LEVEL),
      Coverage(GetOr(result, "approved_amount", DEFAULT_APPROVED_AMOUNT), 0, CURRENCY),
      justification,
      GetOr(result, "risk_factors", JArr([])),
      GetOr(result, "recommendations", JArr([])),
      ProcessingMetadata(documentCount, 0, |justification|, AI_MODEL, "v1", "v2", GetOr(result, "token_usage", DEFAULT_TOKENS)),
      Get(result, "error"))
  }

  /** What the endpoint makes of the pipeline's ending: an exception becomes
      a DocumentProcessingError, a returned dict a response (or the
      AttributeError of a non-dict analysis item). */
  function Respond(outcome: Outcome, documentCount: nat): (r: Result<EvaluationResponse, ApiError>)
    ensures outcome.Raised? ==> r == Err(DocumentProcessingError(outcome.message))
    ensures outcome.Returned? ==> (r.Ok? <==> Justifications(GetOr(outcome.result, "analysis", JArr([]))).Ok?)
    ensures r.Ok? ==>
      && outcome.Returned?
      && r.value.justification == Justifications(GetOr(outcome.result, "analysis", JArr([]))).value
  {
    match outcome
    case Raised(m) => Err(DocumentProcessingError(m))
    case Returned(result) =>
      match Justifications(GetOr(result, "analysis", JArr([])))
      case Err(e) => Err(Unhandled(e))
      case Ok(js) => Ok(ResponseFor(result, js, documentCount))
  }

  /** How process_request may end for this request, as ProcessRequest
      promises it. */
  ghost predicate PipelineEndsWith(req: PipelineRequest, g: Gemini, reader: DocumentReader, geminiKeySet: bool,
                                   outcome: Outcome, ids: seq<nat>)
  {
    var st := Prepare(req, g, reader, geminiKeySet);
    if st.Finished? then outcome == st.outcome
    else
      var query := QueryEmbedding(g, st.combined, st.entries);
      && (query.Err? ==> outcome == Raised(query.error))
      && (query.Ok? ==> TopFive(st.entries, query.value, ids) && outcome == Conclude(g, st.entities, TextsAt(st.entries, ids)))
  }

  /** evaluate_policy. */
  method EvaluatePolicy(req: PipelineRequest, g: Gemini, reader: DocumentReader, geminiKeySet: bool)
    returns (r: Result<EvaluationResponse, ApiError>, ghost outcome: Outcome, ghost ids: seq<nat>)
    ensures PipelineEndsWith(req, g, reader, geminiKeySet, outcome, ids)
    ensures r == Respond(outcome, |req.documents|)
  {
    var o;
    o, ids := ProcessRequest(req, g, reader, geminiKeySet);
    outcome := o;
    if o.Raised? {
      return Err(DocumentProcessingError(o.message)), outcome, ids;
    }
    var justifications := BuildJustifications(GetOr(o.result, "analysis", JArr([])));
    if justifications.Err? {
      return Err(Unhandled(justifications.error)), outcome, ids;
    }
    r := Ok(ResponseFor(o.result, justifications.value, |req.documents|));
  }

  // ---------------------------------------------------------- properties

  /** A list of dicts gives one justification per item, in order; a list
      with another item raises at the first such item. */
  lemma {:induction false} OneJustificationPerItem(items: seq<Json>)
    ensures JustifyAll(items).Ok? <==> forall i :: 0 <= i < |items| ==> items[i].JObj?
    ensures JustifyAll(items).Ok? ==>
      && |JustifyAll(items).value| == |items|
      && forall i :: 0 <= i < |items| ==> JustifyAll(items).value[i] == JustificationFrom(items[i].fields)
  {
    if items != [] && items[0].JObj? {
      OneJustificationPerItem(items[1..]);
      assert forall i :: 1 <= i < |items| ==> items[i] == items[1..][i - 1];
    }
  }

  /** The error raised is that of the first item that is not a dict. */
  lemma {:induction false} FirstNonDictRaises(items: seq<Json>, k: nat)
    requires k < |items| && !items[k].JObj?
    requires forall i :: 0 <= i < k ==> items[i].JObj?
    ensures JustifyAll(items) == Err(NoGetError(items[k]))
  {
    if k > 0 {
      assert !items[1..][k - 1].JObj?;
      FirstNonDictRaises(items[1..], k - 1);
    }
  }

  /** A field present in the item is copied as it is, even when null; a
      missing one takes its default. */
  lemma JustificationFieldDefaults(item: map<string, Json>)
    ensures JustificationFrom(item).clauseId == if "clause_id" in item then item["clause_id"] else JStr("N/A")
    ensures JustificationFrom(item).text == if "reasoning" in item then item["reasoning"] else JStr("No reasoning provided.")
    ensures JustificationFrom(item).matchedCriteria == if "matched_criteria" in item then item["matched_criteria"] else JArr([])
    ensures JustificationFrom(item).confidence == if "relevance_score" in item then item["relevance_score"] else JFloat(0.0)
    ensures JustificationFrom(item).ruleType == if "clause_type" in item then item["clause_type"] else JStr("general")
    ensures JustificationFrom(item).source == JustificationSource("source_doc", 1, "Details")
  {
  }

  /** A result whose `analysis` is missing or is not a list produces a
      response with no justification. */
  lemma NonListAnalysisHasNoJustifications(result: map<string, Json>, documentCount: nat)
    requires !GetOr(result, "analysis", JArr([])).JArr?
    ensures Respond(Returned(result), documentCount).Ok?
    ensures Respond(Returned(result), documentCount).value.justification == []
    ensures Respond(Returned(result), documentCount).value.metadata.clausesEvaluated == 0
  {
  }

  /** The counters: the request's documents, no failures, and the number of
      justifications. */
  lemma ResponseCounters(outcome: Outcome, documentCount: nat)
    requires Respond(outcome, documentCount).Ok?
    ensures var resp := Respond(outcome, documentCount).value;
      && resp.metadata.documentsProcessed == documentCount
      && resp.metadata.documentsFailed == 0
      && resp.metadata.clausesEvaluated == |resp.justification|
      && (outcome.Returned? && GetOr(outcome.result, "analysis", JArr([])).JArr? ==>
            |resp.justification| == |GetOr(outcome.result, "analysis", JArr([])).items|)
  {
    if outcome.Returned? && GetOr(outcome.result, "analysis", JArr([])).JArr? {
      OneJustificationPerItem(GetOr(outcome.result, "analysis", JArr([])).items);
    }
  }

  /** Missing decision fields take their defaults, and the fixed fields are
      the same for every response. */
  lemma DecisionDefaults(result: map<string, Json>, documentCount: nat)
    requires Respond(Returned(result), documentCount).Ok?
    ensures var resp := Respond(Returned(result), documentCount).value;
      && ("decision" !in result ==> resp.decision.status == JStr("requires_review"))
      && ("confidence_score" !in result ==> resp.decision.confidenceScore == JFloat(0.5))
      && ("approved_amount" !in result ==> resp.coverage.approvedAmount == JInt(0))
      && ("token_usage" !in result ==> resp.metadata.geminiTokensUsed == JInt(0))
      && resp.decision.riskLevel == "medium"
      && resp.coverage.currency == "INR" && resp.coverage.maximumEligible == 0
      && resp.metadata.aiModel == "gemini-1.5-flash-latest"
  {
  }

  /** An error record of the pipeline is forwarded in `error`, next to the
      defaulted decision and an empty justification list. */
  lemma ErrorRecordIsForwarded(message: string, documentCount: nat)
    ensures Respond(Returned(ErrorRecord(message)), documentCount) ==
      Ok(EvaluationResponse(
        Decision(JStr("requires_review"), JFloat(0.5), "medium"),
        Coverage(JInt(0), 0, "INR"),
        [],
        JArr([]),
        JArr([]),
        ProcessingMetadata(documentCount, 0, 0, "gemini-1.5-flash-latest", "v1", "v2", JInt(0)),
        Some(JStr(message))))
  {
  }

  /** An exception of the pipeline becomes a DocumentProcessingError (500,
      DOCUMENT_PROCESSING_FAILED) carrying its message. */
  lemma PipelineExceptionIsProcessingError(message: string, documentCount: nat)
    ensures Respond(Raised(message), documentCount) == Err(ApiException(500, "DOCUMENT_PROCESSING_FAILED", message))
  {
  }

  /** A request without documents is answered with a response whose error is
      the pipeline's missing-input record, whatever the services do. */
  lemma NoDocumentsResponse(req: PipelineRequest, g: Gemini, reader: DocumentReader, geminiKeySet: bool,
                            outcome: Outcome, ids: seq<nat>)
    requires req.documents == []
    requires PipelineEndsWith(req, g, reader, geminiKeySet, outcome, ids)
    ensures Respond(outcome, |req.documents|).Ok?
    ensures Respond(outcome, |req.documents|).value.error == Some(JStr(MISSING_INPUT))
    ensures Respond(outcome, |req.documents|).value.metadata.documentsProcessed == 0
  {
    ErrorRecordIsForwarded(MISSING_INPUT, 0);
  }

  /** With the pipeline as written, the endpoint never reports a decision:
      it answers one of the pipeline's error records (default decision, no
      justification) or raises a DocumentProcessingError. */
  lemma AsWrittenEndpointNeverDecides(req: PipelineRequest, g: Gemini, reader: DocumentReader, geminiKeySet: bool)
    ensures var r := Respond(ProcessRequestAsWritten(req, g, reader, geminiKeySet), |req.documents|);
      || (r.Err? && r.error.ApiException? && r.error.status == 500 && r.error.code == "DOCUMENT_PROCESSING_FAILED")
      || (&& r.Ok? && r.value.justification == []
          && r.value.decision.status == JStr("requires_review")
          && r.value.error in {Some(JStr(MISSING_INPUT)), Some(JStr(NO_QUERY)), Some(JStr(NO_CONTENT))})
  {
    AsWrittenNeverDecides(req, g, reader, geminiKeySet);
    var outcome := ProcessRequestAsWritten(req, g, reader, geminiKeySet);
    if outcome.Returned? {
      ErrorRecordIsForwarded(MISSING_INPUT, |req.documents|);
      ErrorRecordIsForwarded(NO_QUERY, |req.documents|);
      ErrorRecordIsForwarded(NO_CONTENT, |req.documents|);
    }
  }
}
