/** The streaming loop shared, word for word, by
    prisma/services/deepThink/expert.ts and synthesis.ts: poll the abort
    signal before each chunk, split the chunk's parts into answer text and
    thought text, and report the two strings through `onChunk`. */
module Chunks {
  import opened Types
  import opened Abort

  /** One element of `candidates[0].content.parts`: whether `part.thought`
      is truthy, and `part.text`. */
  datatype Part = Part(thought: bool, text: Option<string>)

  /** One streamed chunk. `parts` is `None` when any link of
      `candidates?.[0]?.content?.parts` is missing. */
  datatype Chunk = Chunk(parts: Option<seq<Part>>)

  /** A response stream: the chunks it yields, then either the end of the
      stream (`failure == None`) or the error the stream throws. */
  datatype ChunkStream = ChunkStream(chunks: seq<Chunk>, failure: Option<SdkError>)

  /** The arguments of one `onChunk(text, thought)` call. */
  datatype Delta = Delta(text: string, thought: string)

  /** How the `for await` loop is left: normally (the stream ended or the
      abort check broke out of it) or by an error the stream threw. */
  datatype LoopExit = Done | Failed(error: SdkError)

  /** `part.text || ""`. */
  function PartText(p: Part): string {
    p.text.GetOr("")
  }

  /** The texts of the answer parts, in order. */
  function AnswerText(parts: seq<Part>): string
    decreases |parts|
  {
    if parts == [] then ""
    else (if parts[0].thought then "" else PartText(parts[0])) + AnswerText(parts[1..])
  }

  /** The texts of the thought parts, in order. */
  function ThoughtText(parts: seq<Part>): string
    decreases |parts|
  {
    if parts == [] then ""
    else (if parts[0].thought then PartText(parts[0]) else "") + ThoughtText(parts[1..])
  }

  /** The total length of all part texts. */
  function TextLength(parts: seq<Part>): nat
    decreases |parts|
  {
    if parts == [] then 0 else |PartText(parts[0])| + TextLength(parts[1..])
  }

  lemma {:induction false} AnswerTextAppend(a: seq<Part>, b: seq<Part>)
    ensures AnswerText(a + b) == AnswerText(a) + AnswerText(b)
    ensures ThoughtText(a + b) == ThoughtText(a) + ThoughtText(b)
    decreases |a|
  {
    if a != [] {
      assert (a + b)[1..] == a[1..] + b;
      AnswerTextAppend(a[1..], b);
    } else {
      assert a + b == b;
    }
  }

  /** Every part's text goes to exactly one of the two strings: nothing is
      lost and nothing is counted twice. */
  lemma {:induction false} SplitKeepsAllText(parts: seq<Part>)
    ensures |AnswerText(parts)| + |ThoughtText(parts)| == TextLength(parts)
    decreases |parts|
  {
    if parts != [] {
      SplitKeepsAllText(parts[1..]);
    }
  }

  /** The inner loop over one chunk's parts: thought parts add
      `part.text || ""` to the thought string, other parts add a non-empty
      `part.text` to the answer string. */
  method SplitChunk(parts: seq<Part>) returns (d: Delta)
    ensures d == Delta(AnswerText(parts), ThoughtText(parts))
  {
    var chunkText := "";
    var chunkThought := "";
    for i := 0 to |parts|
      invariant chunkText == AnswerText(parts[..i])
      invariant chunkThought == ThoughtText(parts[..i])
    {
      var part := parts[i];
      if part.thought {
        chunkThought := chunkThought + PartText(part);
      } else if part.text.Some? && part.text.value != "" {
        chunkText := chunkText + part.text.value;
      }
      assert parts[..i + 1] == parts[..i] + [part];
      AnswerTextAppend(parts[..i], [part]);
      assert [part][1..] == [];
    }
    assert parts[..|parts|] == parts;
    d := Delta(chunkText, chunkThought);
  }

  /** The `onChunk` calls a sequence of chunks produces: one per chunk that
      has parts, none for the others. */
  function ChunkDeltas(cs: seq<Chunk>): seq<Delta>
    decreases |cs|
  {
    if cs == [] then []
    else
      (match cs[0].parts
       case Some(ps) => [Delta(AnswerText(ps), ThoughtText(ps))]
       case None => []) + ChunkDeltas(cs[1..])
  }

  /** How many chunks have parts. */
  function WithParts(cs: seq<Chunk>): nat
    decreases |cs|
  {
    if cs == [] then 0 else (if cs[0].parts.Some? then 1 else 0) + WithParts(cs[1..])
  }

  /** All parts of the chunks that have parts, in stream order. */
  function StreamParts(cs: seq<Chunk>): seq<Part>
    decreases |cs|
  {
    if cs == [] then [] else cs[0].parts.GetOr([]) + StreamParts(cs[1..])
  }

  /** What the callbacks accumulate: the answer texts, concatenated. */
  function Texts(ds: seq<Delta>): string
    decreases |ds|
  {
    if ds == [] then "" else ds[0].text + Texts(ds[1..])
  }

  /** What the callbacks accumulate: the thought texts, concatenated. */
  function Thoughts(ds: seq<Delta>): string
    decreases |ds|
  {
    if ds == [] then "" else ds[0].thought + Thoughts(ds[1..])
  }

  lemma {:induction false} ChunkDeltasAppend(a: seq<Chunk>, b: seq<Chunk>)
    ensures ChunkDeltas(a + b) == ChunkDeltas(a) + ChunkDeltas(b)
    ensures WithParts(a + b) == WithParts(a) + WithParts(b)
    decreases |a|
  {
    if a != [] {
      assert (a + b)[1..] == a[1..] + b;
      ChunkDeltasAppend(a[1..], b);
    } else {
      assert a + b == b;
    }
  }

  lemma {:induction false} TextsAppend(a: seq<Delta>, b: seq<Delta>)
    ensures Texts(a + b) == Texts(a) + Texts(b)
    ensures Thoughts(a + b) == Thoughts(a) + Thoughts(b)
    decreases |a|
  {
    if a != [] {
      assert (a + b)[1..] == a[1..] + b;
      TextsAppend(a[1..], b);
    } else {
      assert a + b == b;
    }
  }

  /** `onChunk` is called exactly once per chunk that has parts, in stream
      order: the call numbered by how many such chunks came before chunk `i`
      carries chunk `i`'s split. */
  lemma {:induction false} DeltaPerChunk(cs: seq<Chunk>, i: nat)
    requires i < |cs| && cs[i].parts.Some?
    ensures |ChunkDeltas(cs)| == WithParts(cs)
    ensures WithParts(cs[..i]) < |ChunkDeltas(cs)|
    ensures ChunkDeltas(cs)[WithParts(cs[..i])] ==
      Delta(AnswerText(cs[i].parts.value), ThoughtText(cs[i].parts.value))
  {
    assert cs == cs[..i] + [cs[i]] + cs[i + 1..];
    ChunkDeltasAppend(cs[..i] + [cs[i]], cs[i + 1..]);
    ChunkDeltasAppend(cs[..i], [cs[i]]);
    DeltaCount(cs[..i]);
    DeltaCount(cs[i + 1..]);
    assert [cs[i]][1..] == [];
  }

  lemma {:induction false} DeltaCount(cs: seq<Chunk>)
    ensures |ChunkDeltas(cs)| == WithParts(cs)
    decreases |cs|
  {
    if cs != [] {
      DeltaCount(cs[1..]);
    }
  }

  /** The concatenated `onChunk` texts are the answer texts of all parts of
      the stream, and the concatenated thoughts its thought texts: chunk
      boundaries do not matter. */
  lemma {:induction false} DeltasConcatenate(cs: seq<Chunk>)
    ensures Texts(ChunkDeltas(cs)) == AnswerText(StreamParts(cs))
    ensures Thoughts(ChunkDeltas(cs)) == ThoughtText(StreamParts(cs))
    decreases |cs|
  {
    if cs != [] {
      DeltasConcatenate(cs[1..]);
      var head := match cs[0].parts
        case Some(ps) => [Delta(AnswerText(ps), ThoughtText(ps))]
        case None => [];
      TextsAppend(head, ChunkDeltas(cs[1..]));
      AnswerTextAppend(cs[0].parts.GetOr([]), StreamParts(cs[1..]));
      if cs[0].parts.Some? {
        assert head[1..] == [];
      }
    }
  }

  /** What an interrupted stream delivered is a prefix of what the whole
      stream would have delivered. */
  lemma DeltasOfPrefix(cs: seq<Chunk>, k: nat)
    requires k <= |cs|
    ensures ChunkDeltas(cs[..k]) <= ChunkDeltas(cs)
    ensures Texts(ChunkDeltas(cs[..k])) <= Texts(ChunkDeltas(cs))
  {
    assert cs == cs[..k] + cs[k..];
    ChunkDeltasAppend(cs[..k], cs[k..]);
    TextsAppend(ChunkDeltas(cs[..k]), ChunkDeltas(cs[k..]));
  }

  /** The `for await` loop over an opened stream. The signal is polled before
      each chunk; the first poll that sees it aborted breaks out of the loop
      quietly, so the deltas are those of the chunks before it. If no poll
      does, every chunk is handled and the stream's own error, if any,
      leaves the loop. */
  method ConsumeStream(s: ChunkStream, signal: AbortController) returns (deltas: seq<Delta>, exit: LoopExit)
    modifies signal
    ensures var cut := old(signal.PassingPolls(signal.polls, |s.chunks|));
      deltas == ChunkDeltas(s.chunks[..cut]) &&
      (cut < |s.chunks| ==> exit == Done && signal.aborted && signal.polls == old(signal.polls) + cut + 1) &&
      (cut == |s.chunks| ==>
        signal.aborted == old(signal.aborted) && signal.polls == old(signal.polls) + cut &&
        exit == (if s.failure.Some? then Failed(s.failure.value) else Done))
    ensures signal.PolledFrom(old(signal.aborted), old(signal.polls))
  {
    ghost var cut := signal.PassingPolls(signal.polls, |s.chunks|);
    ghost var p0 := signal.polls;
    ghost var a0 := signal.aborted;
    deltas := [];
    exit := Done;
    var i := 0;
    while i < |s.chunks|
      invariant i <= cut
      invariant signal.polls == p0 + i
      invariant signal.aborted == a0
      invariant deltas == ChunkDeltas(s.chunks[..i])
      invariant signal.PolledFrom(a0, p0)
    {
      var stop := signal.IsAborted();
      PolledFromCompose(signal, a0, p0, a0, p0 + i);
      if stop {
        assert i == cut;
        return;
      }
      assert i < cut;
      var chunk := s.chunks[i];
      if chunk.parts.Some? {
        var d := SplitChunk(chunk.parts.value);
        deltas := deltas + [d];
      }
      assert s.chunks[..i + 1] == s.chunks[..i] + [chunk];
      ChunkDeltasAppend(s.chunks[..i], [chunk]);
      assert [chunk][1..] == [];
      i := i + 1;
    }
    if s.failure.Some? {
      exit := Failed(s.failure.value);
    }
  }
}
