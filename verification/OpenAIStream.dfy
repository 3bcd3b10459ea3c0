/** OpenAI chat-completion stream lines, as objects: the byte encoding is not modelled. */
module OpenAIStream {
  import opened Text

  /** A delta field that may hold a string, an array of parts (the text of each), or neither. */
  datatype TextField = Absent | Str(s: string) | Parts(texts: seq<string>)

  /** One entry of `delta.tool_calls`; a missing string is "". */
  datatype ToolCallDelta = ToolCallDelta(index: int, id: string, name: string, arguments: string)

  datatype Delta = Delta(
    role: string, content: TextField, reasoning: TextField, reasoningContent: TextField,
    toolCalls: seq<ToolCallDelta>)

  datatype Choice = Choice(delta: Delta, finishReason: string)

  datatype Chunk = Chunk(choices: seq<Choice>)

  /** A line of the stream; `Noise` is any line that is not `data:` with a JSON object. */
  datatype Line = Data(chunk: Chunk) | Done | Noise

  const EMPTY_DELTA := Delta("", Absent, Absent, Absent, [])

  function FieldFragments(f: TextField): seq<string> {
    match f
    case Absent => []
    case Str(s) => NonEmpty([s])
    case Parts(texts) => NonEmpty(texts)
  }

  /** The text fragments of a delta: content, then reasoning, then reasoning_content. */
  function TextFragments(d: Delta): seq<string> {
    FieldFragments(d.content) + FieldFragments(d.reasoning) + FieldFragments(d.reasoningContent)
  }

  // ---------------------------------------------------------------- what a stream says

  /** The text of a field, a delta, a chunk and a stream up to its `[DONE]` line. */
  function FieldText(f: TextField): string {
    match f
    case Absent => ""
    case Str(s) => s
    case Parts(texts) => Concat(texts)
  }

  function DeltaText(d: Delta): string {
    FieldText(d.content) + FieldText(d.reasoning) + FieldText(d.reasoningContent)
  }

  function ChunkText(choices: seq<Choice>): string {
    if choices == [] then "" else ChunkText(choices[..|choices| - 1]) + DeltaText(choices[|choices| - 1].delta)
  }

  function StreamText(lines: seq<Line>): string {
    if lines == [] || lines[0].Done? then ""
    else (if lines[0].Data? then ChunkText(lines[0].chunk.choices) else "") + StreamText(lines[1..])
  }

  /** The argument fragments for tool `k`, likewise. */
  function CallsArguments(calls: seq<ToolCallDelta>, k: int): string {
    if calls == [] then ""
    else
      var last := calls[|calls| - 1];
      CallsArguments(calls[..|calls| - 1], k) + if last.index == k then last.arguments else ""
  }

  function ChunkArguments(choices: seq<Choice>, k: int): string {
    if choices == [] then ""
    else ChunkArguments(choices[..|choices| - 1], k) + CallsArguments(choices[|choices| - 1].delta.toolCalls, k)
  }

  function StreamArguments(lines: seq<Line>, k: int): string {
    if lines == [] || lines[0].Done? then ""
    else (if lines[0].Data? then ChunkArguments(lines[0].chunk.choices, k) else "") + StreamArguments(lines[1..], k)
  }

  lemma FragmentsText(d: Delta)
    ensures Concat(TextFragments(d)) == DeltaText(d)
  {
    FieldFragmentsText(d.content);
    FieldFragmentsText(d.reasoning);
    FieldFragmentsText(d.reasoningContent);
    ConcatAppend(FieldFragments(d.content), FieldFragments(d.reasoning));
    ConcatAppend(FieldFragments(d.content) + FieldFragments(d.reasoning), FieldFragments(d.reasoningContent));
  }

  lemma FieldFragmentsText(f: TextField)
    ensures Concat(FieldFragments(f)) == FieldText(f)
  {
    match f
    case Absent =>
    case Str(s) =>
      ConcatNonEmpty([s]);
      assert Concat([s]) == s + Concat([]);
    case Parts(texts) => ConcatNonEmpty(texts);
  }
}
