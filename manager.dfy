/** The planning call of prisma/services/deepThink/manager.ts: ask the model
    for a panel of supplementary experts and accept its answer only when it
    is an object with an `experts` array. */
module Manager {
  import opened Types

  /** The parts of the `generateContent` request that depend on the inputs.
      The system prompt, the response MIME type and the response schema are
      the same for every call. */
  datatype ManagerRequest = ManagerRequest(model: string, contents: string, budget: int)

  /** The SDK's answer to the planning request: `None` when `text` is
      undefined. */
  type PlanningReply = Result<Option<string>>

  const ContextHeading := "Context:\n"
  const QueryHeading := "\n\nCurrent Query: \""

  /** The user turn of the planning request: the context under a heading,
      then the query in double quotes. */
  function ManagerContents(context: string, query: string): string
  {
    ContextHeading + context + QueryHeading + query + "\""
  }

  /** The user turn holds the whole context under its heading and ends with
      the whole query and the closing quote. */
  lemma ManagerContentsLayout(context: string, query: string)
    ensures var r := ManagerContents(context, query);
      |r| == |ContextHeading| + |context| + |QueryHeading| + |query| + 1 &&
      r[..|ContextHeading|] == ContextHeading &&
      r[|ContextHeading|..|ContextHeading| + |context|] == context &&
      r[|r| - |query| - 1..] == query + "\""
  {
    var r := ContextHeading + context + QueryHeading + query + "\"";
    assert r[|ContextHeading|..|ContextHeading| + |context|] == context;
    assert r[|r| - |query| - 1..] == query + "\"";
  }

  /** `analysisResp.text || '{}'`. */
  function RawText(text: Option<string>): (r: string)
    ensures r != ""
    ensures text.Some? && text.value != "" ==> r == text.value
  {
    match text
    case Some(t) => if t != "" then t else "{}"
    case None => "{}"
  }

  /** The check the parsed answer must pass: `experts` is present, truthy and
      an array. Anything else that `JSON.parse` can return (a primitive,
      `null`, an array, an object without such a field) fails it; reading
      `.experts` of `null` throws, which the same `catch` absorbs. */
  predicate ValidPayload(j: Json) {
    j.JObj? && "experts" in j.fields && j.fields["experts"].JArr?
  }

  /** The answer used whenever the model's answer cannot be used. */
  const Fallback: Json :=
    JObj(map["thought_process" := JStr("Direct processing."), "experts" := JArr([])])

  /** The experts an accepted answer proposes. */
  function PayloadExperts(j: Json): (r: seq<Json>)
    requires ValidPayload(j)
  {
    j.fields["experts"].items
  }

  /** `executeManagerAnalysis`. The SDK call, `cleanJsonString` and
      `JSON.parse` are given as functions: `generate` answers the request
      or throws, `parse` returns `None` where `JSON.parse` throws. A thrown
      SDK error leaves the call (it is outside the `try`); every other
      outcome is a usable plan. */
  function ExecuteManagerAnalysis(
    model: string, query: string, context: string, budget: int,
    generate: ManagerRequest -> PlanningReply,
    clean: string -> string,
    parse: string -> Option<Json>): (r: Result<Json>)
    ensures var reply := generate(ManagerRequest(model, ManagerContents(context, query), budget));
      (reply.Thrown? <==> r.Thrown?) &&
      (reply.Thrown? ==> r.error == reply.error)
    ensures r.Ok? ==> ValidPayload(r.value)
    ensures r.Ok? ==>
      r.value == Fallback ||
      parse(clean(RawText(generate(ManagerRequest(model, ManagerContents(context, query), budget)).value))) == Some(r.value)
  {
    var reply := generate(ManagerRequest(model, ManagerContents(context, query), budget));
    match reply
    case Thrown(e) => Thrown(e)
    case Ok(text) =>
      match parse(clean(RawText(text)))
      case Some(j) => if ValidPayload(j) then Ok(j) else Ok(Fallback)
      case None => Ok(Fallback)
  }

  /** The fallback plan has no supplementary experts. */
  lemma FallbackHasNoExperts()
    ensures ValidPayload(Fallback) && PayloadExperts(Fallback) == []
  {
  }

  /** Once the SDK has answered, the planning call never fails: a parse
      error or a structurally invalid answer yields the fallback, an
      accepted answer is returned unchanged whatever its length and
      whatever its elements are. */
  lemma PlanAfterReply(
    model: string, query: string, context: string, budget: int,
    generate: ManagerRequest -> PlanningReply,
    clean: string -> string,
    parse: string -> Option<Json>)
    requires generate(ManagerRequest(model, ManagerContents(context, query), budget)).Ok?
    ensures var text := generate(ManagerRequest(model, ManagerContents(context, query), budget)).value;
      var parsed := parse(clean(RawText(text)));
      var r := ExecuteManagerAnalysis(model, query, context, budget, generate, clean, parse);
      r.Ok? &&
      (parsed.None? ==> r.value == Fallback) &&
      (parsed.Some? && !ValidPayload(parsed.value) ==> r.value == Fallback) &&
      (parsed.Some? && ValidPayload(parsed.value) ==> r.value == parsed.value)
  {
  }

  /** An empty or missing answer is read as "{}", whose parse has no
      `experts`, so the plan is the fallback. */
  lemma EmptyReplyFallsBack(
    model: string, query: string, context: string, budget: int,
    generate: ManagerRequest -> PlanningReply,
    clean: string -> string,
    parse: string -> Option<Json>)
    requires generate(ManagerRequest(model, ManagerContents(context, query), budget)) in {Ok(None), Ok(Some(""))}
    requires parse(clean("{}")) in {None, Some(JObj(map[]))}
    ensures ExecuteManagerAnalysis(model, query, context, budget, generate, clean, parse) == Ok(Fallback)
  {
  }
}
