/** GeminiPolicyProcessor: the calls into the generative model and the
    embedding endpoint, and the defensive handling of what comes back. The
    remote services and json.loads are functions supplied by the caller; the
    prompts are described by what they embed, not by their wording. */
module GeminiService {
  import opened Wrappers
  import opened Text
  import opened Json
  import opened VectorStore

  // ------------------------------------------------------- the gateways

  /** What a prompt is built from. */
  datatype Prompt =
    | EntitiesPrompt(queryText: string)
    | ClausesPrompt(query: Json, chunks: seq<string>)
    | DecisionPrompt(query: Json, clauses: Json)
    | AnswerPrompt(question: string, context: string)

  /** The task_type the embedding endpoint is called with. */
  datatype TaskType = RetrievalDocument | RetrievalQuery

  /** The remote model, the embedding endpoint and json.loads. A function
      returning Err stands for a call that raises, with the exception text;
      loads returns None where json.loads raises JSONDecodeError. */
  datatype Gemini = Gemini(
    generate: Prompt -> Result<string, string>,
    embed: (string, TaskType) -> Result<Vector, string>,
    embedBatch: seq<string> -> Result<seq<Vector>, string>,
    loads: string -> Option<Json>)

  // ---------------------------------------------------- reply parsing

  const OPEN_FENCE: string := "```json\n"
  const CLOSE_FENCE: string := "\n```"

  /** The pattern ```json\n(.*?)\n``` (dot matching newlines) matches with an
      opening fence at p and the closing fence at q. */
  ghost predicate FenceAt(text: string, p: nat, q: nat)
  {
    OccursAt(text, OPEN_FENCE, p) && p + |OPEN_FENCE| <= q && OccursAt(text, CLOSE_FENCE, q)
  }

  /** The match re.search reports: the leftmost start, and from it the
      shortest (lazy) group. */
  ghost predicate FirstLazyFence(text: string, p: nat, q: nat)
  {
    && FenceAt(text, p, q)
    && (forall p2: nat, q2: nat :: FenceAt(text, p2, q2) ==> p <= p2)
    && (forall q2: nat :: FenceAt(text, p, q2) ==> q <= q2)
  }

  /** The group of the first fenced json block, if there is one. */
  function FencedJson(text: string): (r: Option<string>)
    ensures r.None? <==> forall p: nat, q: nat :: !FenceAt(text, p, q)
    ensures r.Some? ==> exists p: nat, q: nat ::
      FirstLazyFence(text, p, q) && r.value == text[p + |OPEN_FENCE|..q]
  {
    match IndexOf(text, OPEN_FENCE, 0)
    case None => None
    case Some(p) =>
      match IndexOf(text, CLOSE_FENCE, p + |OPEN_FENCE|)
      case None => None
      case Some(q) =>
        assert FirstLazyFence(text, p, q);
        Some(text[p + |OPEN_FENCE|..q])
  }

  /** The record returned when the reply is not JSON. */
  function ParseFailure(text: string): (r: Json)
    ensures r.JObj? && r.fields.Keys == {"error", "raw_response"}
    ensures r.fields["raw_response"] == JStr(text)
  {
    JObj(map["error" := JStr("Failed to parse LLM response"), "raw_response" := JStr(text)])
  }

  /** _parse_json_response: parse the fenced block if there is one, else the
      whole reply; a decode failure becomes an error record, never an
      exception. */
  function ParseJsonResponse(text: string, loads: string -> Option<Json>): (r: Json)
    ensures FencedJson(text).None? ==> r == (if loads(text).Some? then loads(text).value else ParseFailure(text))
    ensures FencedJson(text).Some? ==> var g := FencedJson(text).value;
      r == (if loads(g).Some? then loads(g).value else ParseFailure(text))
  {
    var jsonStr := match FencedJson(text) case Some(g) => g case None => text;
    match loads(jsonStr)
    case Some(v) => v
    case None => ParseFailure(text)
  }

  /** A reply that cannot be decoded yields the error record holding the whole
      reply, not the extracted block. */
  lemma ParseFailureKeepsRawReply(text: string, loads: string -> Option<Json>)
    requires loads(match FencedJson(text) case Some(g) => g case None => text).None?
    ensures ParseJsonResponse(text, loads).JObj?
    ensures ParseJsonResponse(text, loads).fields["error"] == JStr("Failed to parse LLM response")
    ensures ParseJsonResponse(text, loads).fields["raw_response"] == JStr(text)
  {
  }

  /** The first lazy match is unique, so it is the group FencedJson returns. */
  lemma FirstFenceIsParsed(text: string, p: nat, q: nat)
    requires FirstLazyFence(text, p, q)
    ensures FencedJson(text) == Some(text[p + |OPEN_FENCE|..q])
  {
    var open := IndexOf(text, OPEN_FENCE, 0);
    assert open.Some? && open.value <= p;
    assert FenceAt(text, open.value, q);
    assert open.value == p;
    var close := IndexOf(text, CLOSE_FENCE, p + |OPEN_FENCE|);
    assert close.Some? && close.value <= q;
    assert FenceAt(text, p, close.value);
    assert close.value == q;
  }

  /** A reply of the shape prose, fence, block, fence, prose parses the
      block, when no fence opens in the prose before it and the block holds
      no closing fence. */
  lemma FencedBlockIsParsed(prefix: string, body: string, suffix: string, loads: string -> Option<Json>)
    requires forall j: nat :: j < |prefix| ==> !OccursAt(prefix + OPEN_FENCE + body + CLOSE_FENCE + suffix, OPEN_FENCE, j)
    requires forall j: nat :: j < |body| ==> !OccursAt(body + CLOSE_FENCE, CLOSE_FENCE, j)
    ensures FencedJson(prefix + OPEN_FENCE + body + CLOSE_FENCE + suffix) == Some(body)
    ensures ParseJsonResponse(prefix + OPEN_FENCE + body + CLOSE_FENCE + suffix, loads) ==
      if loads(body).Some? then loads(body).value else ParseFailure(prefix + OPEN_FENCE + body + CLOSE_FENCE + suffix)
  {
    var head := prefix + OPEN_FENCE;
    var tail := body + CLOSE_FENCE;
    var text := head + tail + suffix;
    assert text == prefix + OPEN_FENCE + body + CLOSE_FENCE + suffix;
    var p, q := |prefix|, |head| + |body|;
    assert text[p..p + |OPEN_FENCE|] == OPEN_FENCE by {
      assert text[..|head|] == head;
    }
    assert text[q..q + |CLOSE_FENCE|] == CLOSE_FENCE by {
      assert text[|head|..|head| + |tail|] == tail;
    }
    assert text[|head|..q] == body;
    CloseFenceNotEarlier(head, tail, suffix, |body|);
    assert FirstLazyFence(text, p, q);
    FirstFenceIsParsed(text, p, q);
  }

  lemma CloseFenceNotEarlier(head: string, tail: string, suffix: string, n: nat)
    requires n + |CLOSE_FENCE| <= |tail|
    requires forall j: nat :: j < n ==> !OccursAt(tail, CLOSE_FENCE, j)
    ensures forall q2: nat :: |head| <= q2 < |head| + n ==> !OccursAt(head + tail + suffix, CLOSE_FENCE, q2)
  {
    var text := head + tail + suffix;
    forall q2: nat | |head| <= q2 < |head| + n
      ensures !OccursAt(text, CLOSE_FENCE, q2)
    {
      var j := q2 - |head|;
      assert !OccursAt(tail, CLOSE_FENCE, j);
      assert text[q2..q2 + |CLOSE_FENCE|] == tail[j..j + |CLOSE_FENCE|];
    }
  }

  // ----------------------------------------------------- the services

  /** extract_entities: the parsed reply; a failing call raises. */
  function ExtractEntities(g: Gemini, queryText: string): (r: Result<Json, string>)
    ensures r.Err? <==> g.generate(EntitiesPrompt(queryText)).Err?
    ensures r.Err? ==> r.error == g.generate(EntitiesPrompt(queryText)).error
    ensures r.Ok? ==> r.value == ParseJsonResponse(g.generate(EntitiesPrompt(queryText)).value, g.loads)
  {
    match g.generate(EntitiesPrompt(queryText))
    case Ok(reply) => Ok(ParseJsonResponse(reply, g.loads))
    case Err(e) => Err(e)
  }

  /** analyze_policy_clauses. */
  function AnalyzePolicyClauses(g: Gemini, query: Json, chunks: seq<string>): (r: Result<Json, string>)
    ensures r.Err? <==> g.generate(ClausesPrompt(query, chunks)).Err?
    ensures r.Err? ==> r.error == g.generate(ClausesPrompt(query, chunks)).error
    ensures r.Ok? ==> r.value == ParseJsonResponse(g.generate(ClausesPrompt(query, chunks)).value, g.loads)
  {
    match g.generate(ClausesPrompt(query, chunks))
    case Ok(reply) => Ok(ParseJsonResponse(reply, g.loads))
    case Err(e) => Err(e)
  }

  /** final_decision_reasoning. */
  function FinalDecisionReasoning(g: Gemini, query: Json, clauses: Json): (r: Result<Json, string>)
    ensures r.Err? <==> g.generate(DecisionPrompt(query, clauses)).Err?
    ensures r.Err? ==> r.error == g.generate(DecisionPrompt(query, clauses)).error
    ensures r.Ok? ==> r.value == ParseJsonResponse(g.generate(DecisionPrompt(query, clauses)).value, g.loads)
  {
    match g.generate(DecisionPrompt(query, clauses))
    case Ok(reply) => Ok(ParseJsonResponse(reply, g.loads))
    case Err(e) => Err(e)
  }

  const ANSWER_ERROR_PREFIX: string := "Error generating response: "

  /** The context handed to the model: the chunks, one per line, in order. */
  function AnswerContext(chunks: seq<string>): (r: string)
    ensures chunks == [] ==> r == ""
    ensures |chunks| > 0 ==> StartsWith(r, chunks[0])
  {
    if |chunks| > 0 then JoinHead(chunks, "\n"); Join(chunks, "\n") else Join(chunks, "\n")
  }

  /** Single-line chunks can be read back from the context, in order. */
  lemma AnswerContextKeepsChunks(chunks: seq<string>)
    requires |chunks| > 0 && forall i :: 0 <= i < |chunks| ==> '\n' !in chunks[i]
    ensures SplitOn(AnswerContext(chunks), '\n') == chunks
  {
    SplitOnJoin(chunks, '\n');
  }

  /** generate_answer_from_context: the stripped reply, or an error string
      when the model call raises; it never raises itself. */
  function GenerateAnswerFromContext(g: Gemini, question: string, chunks: seq<string>): (r: string)
    ensures g.generate(AnswerPrompt(question, AnswerContext(chunks))).Ok? ==>
      && r == Strip(g.generate(AnswerPrompt(question, AnswerContext(chunks))).value)
      && (r == [] || (!IsSpace(r[0]) && !IsSpace(r[|r| - 1])))
    ensures g.generate(AnswerPrompt(question, AnswerContext(chunks))).Err? ==>
      r == ANSWER_ERROR_PREFIX + g.generate(AnswerPrompt(question, AnswerContext(chunks))).error
  {
    match g.generate(AnswerPrompt(question, AnswerContext(chunks)))
    case Ok(reply) => Strip(reply)
    case Err(e) => ANSWER_ERROR_PREFIX + e
  }

  /** A successful answer keeps the reply's words exactly. */
  lemma AnswerKeepsReplyWords(g: Gemini, question: string, chunks: seq<string>)
    requires g.generate(AnswerPrompt(question, AnswerContext(chunks))).Ok?
    ensures Words(GenerateAnswerFromContext(g, question, chunks)) ==
      Words(g.generate(AnswerPrompt(question, AnswerContext(chunks))).value)
  {
    WordsOfStrip(g.generate(AnswerPrompt(question, AnswerContext(chunks))).value);
  }
}
