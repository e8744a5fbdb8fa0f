/** The synthesis call (prisma/services/deepThink/synthesis.ts). */
module Synthesis {
  import opened Types
  import opened Prompts
  import opened Abort
  import opened Chunks

  /** The synthesis request, given by the inputs that determine it. The
      system prompt is the same for every call; the user turn the SDK
      receives is `Contents()`. (A model of the SDK that answers from these
      inputs may in particular answer from the prompt text alone.) */
  datatype SynthesisRequest = SynthesisRequest(
    model: string, query: string, historyContext: string, results: seq<ExpertResult>, budget: int)
  {
    function Contents(): string {
      SynthesisPrompt(historyContext, query, results)
    }
  }

  /** `streamSynthesisResponse`. Opening the stream goes through `withRetry`;
      `initiate` is that whole retried call, so a `Thrown` answer is the
      error of the last attempt. Once the stream is open, the same loop as
      for an expert runs, and an error of the stream is thrown on to the
      caller. */
  method StreamSynthesisResponse(
    model: string, query: string, historyContext: string, results: seq<ExpertResult>, budget: int,
    initiate: SynthesisRequest -> Result<ChunkStream>, signal: AbortController)
    returns (deltas: seq<Delta>, exit: LoopExit)
    modifies signal
    ensures var start := initiate(SynthesisRequest(model, query, historyContext, results, budget));
      start.Thrown? ==>
        deltas == [] && exit == Failed(start.error) &&
        signal.aborted == old(signal.aborted) && signal.polls == old(signal.polls)
    ensures var start := initiate(SynthesisRequest(model, query, historyContext, results, budget));
      start.Ok? ==>
        var s := start.value;
        var cut := old(signal.PassingPolls(signal.polls, |s.chunks|));
        deltas == ChunkDeltas(s.chunks[..cut]) &&
        (cut < |s.chunks| ==> exit == Done && signal.aborted && signal.polls == old(signal.polls) + cut + 1) &&
        (cut == |s.chunks| ==>
          signal.aborted == old(signal.aborted) && signal.polls == old(signal.polls) + cut &&
          exit == (if s.failure.Some? then Failed(s.failure.value) else Done))
    ensures signal.PolledFrom(old(signal.aborted), old(signal.polls))
  {
    var start := initiate(SynthesisRequest(model, query, historyContext, results, budget));
    match start
    case Thrown(e) =>
      deltas, exit := [], Failed(e);
    case Ok(s) =>
      deltas, exit := ConsumeStream(s, signal);
  }
}
