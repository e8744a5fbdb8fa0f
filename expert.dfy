/** One expert's streaming call (prisma/services/deepThink/expert.ts). */
module Expert {
  import opened Types
  import opened Js
  import opened Prompts
  import opened Abort
  import opened Chunks

  /** The `generateContentStream` request of one expert, given by the
      inputs that determine it: `contents` is the expert's prompt and
      `temperature` its temperature, both passed on as they are, and the
      system instruction is `SystemInstruction()`. (A model of the SDK that
      answers from these inputs may in particular answer from the request
      text alone.) */
  datatype ExpertRequest = ExpertRequest(
    model: string, contents: JsValue, role: JsValue, description: JsValue, context: string,
    temperature: JsValue, budget: int)
  {
    function SystemInstruction(): string {
      ExpertSystemInstruction(role, description, context)
    }
  }

  function ExpertRequestFor(model: string, expert: ExpertResult, context: string, budget: int): ExpertRequest {
    ExpertRequest(model, expert.prompt, expert.role, expert.description, context, expert.temperature, budget)
  }

  /** The request asks the model to play the expert's role, gives it the
      whole context, and sends the expert's own prompt and temperature. */
  lemma ExpertRequestShape(model: string, expert: ExpertResult, context: string, budget: int)
    ensures var r := ExpertRequestFor(model, expert, context, budget);
      var role := TemplateText(expert.role);
      var si := r.SystemInstruction();
      r.contents == expert.prompt && r.temperature == expert.temperature &&
      10 + |role| <= |si| && si[..10 + |role|] == "You are a " + role &&
      |context| + 11 <= |si| && si[|si| - |context| - 11..] == ". Context: " + context
  {
    ExpertSystemInstructionLayout(expert.role, expert.description, context);
  }

  /** `streamExpertResponse`. The SDK's `generateContentStream` is the
      function `generate`; it either opens a stream or throws, and a throw
      leaves the call before any chunk. There is no retry. An opened stream
      is handled by the shared loop; its error, if no poll saw the abort
      first, leaves the call as well. */
  method StreamExpertResponse(
    model: string, expert: ExpertResult, context: string, budget: int,
    generate: ExpertRequest -> Result<ChunkStream>, signal: AbortController)
    returns (deltas: seq<Delta>, exit: LoopExit)
    modifies signal
    ensures var start := generate(ExpertRequestFor(model, expert, context, budget));
      start.Thrown? ==>
        deltas == [] && exit == Failed(start.error) &&
        signal.aborted == old(signal.aborted) && signal.polls == old(signal.polls)
    ensures var start := generate(ExpertRequestFor(model, expert, context, budget));
      start.Ok? ==>
        var s := start.value;
        var cut := old(signal.PassingPolls(signal.polls, |s.chunks|));
        deltas == ChunkDeltas(s.chunks[..cut]) &&
        (cut < |s.chunks| ==> exit == Done && signal.aborted && signal.polls == old(signal.polls) + cut + 1) &&
        (cut == |s.chunks| ==>
          signal.aborted == old(signal.aborted) && signal.polls == old(signal.polls) + cut &&
          exit == (if s.failure.Some? then Failed(s.failure.value) else Done))
    ensures signal.PolledFrom(old(signal.aborted), old(signal.polls))
  {
    var start := generate(ExpertRequestFor(model, expert, context, budget));
    match start
    case Thrown(e) =>
      deltas, exit := [], Failed(e);
    case Ok(s) =>
      deltas, exit := ConsumeStream(s, signal);
  }
}
