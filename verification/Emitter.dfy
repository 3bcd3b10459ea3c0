/** `anthropicOpenAIStreamState`: OpenAI deltas in, Anthropic stream events out. */
module Emitter {
  import opened Text
  import opened AnthropicStream
  import opened OpenAIStream

  /** What the emitter remembers of one tool call; `blockIndex` is meaningful once started. */
  datatype ToolState = ToolState(
    id: string, name: string, blockIndex: int, pendingJSON: string, started: bool)

  const NEW_TOOL := ToolState("", "", -1, "", false)

  /** The emitter's fields as one value; `out` is everything written to the client. */
  datatype Emitter = Emitter(
    id: string, nextBlockIndex: int, textBlockIndex: int, textStarted: bool,
    toolBlocks: map<int, ToolState>, toolOrder: seq<int>, out: seq<Event>)
  {
    function Write(e: Event): Emitter {
      this.(out := out + [e])
    }

    function OpenText(): Emitter {
      if textStarted then this
      else
        this.(textBlockIndex := nextBlockIndex, nextBlockIndex := nextBlockIndex + 1,
              textStarted := true).Write(TextBlockStart(nextBlockIndex))
    }

    function WriteText(text: string): Emitter {
      if text == "" then this
      else var s := OpenText(); s.Write(TextDelta(s.textBlockIndex, text))
    }

    function CloseText(): Emitter {
      if textStarted then
        Write(BlockStop(textBlockIndex)).(textStarted := false, textBlockIndex := -1)
      else this
    }

    /** The block of tool `k` as it is once started. */
    function Started(k: int, blockIndex: int): ToolState
      requires k in toolBlocks
    {
      var b := toolBlocks[k];
      ToolState(if b.id == "" then SyntheticId(id, k) else b.id,
                if b.name == "" then "tool" else b.name, blockIndex, "", true)
    }

    function StartTool(k: int): Emitter
      requires k in toolBlocks
    {
      if toolBlocks[k].started then this
      else
        var b := Started(k, nextBlockIndex);
        var s := CloseText();
        var t := s.(nextBlockIndex := nextBlockIndex + 1, toolBlocks := toolBlocks[k := b])
                  .Write(ToolBlockStart(nextBlockIndex, b.id, b.name));
        if toolBlocks[k].pendingJSON == "" then t
        else t.Write(InputJsonDelta(nextBlockIndex, toolBlocks[k].pendingJSON))
    }

    function Touch(k: int): (s: Emitter)
      ensures k in s.toolBlocks
    {
      if k in toolBlocks then this
      else this.(toolBlocks := toolBlocks[k := NEW_TOOL], toolOrder := toolOrder + [k])
    }

    /** Remember the id and name of a call, when it carries them. */
    function Label(k: int, newId: string, newName: string): (s: Emitter)
      requires k in toolBlocks
      ensures s.toolBlocks.Keys == toolBlocks.Keys
    {
      var b := toolBlocks[k];
      this.(toolBlocks := toolBlocks[k := b.(
        id := if newId == "" then b.id else newId,
        name := if newName == "" then b.name else newName)])
    }

    function StartIfLabelled(k: int): (s: Emitter)
      requires k in toolBlocks
      ensures s.toolBlocks.Keys == toolBlocks.Keys
    {
      var b := toolBlocks[k];
      if !b.started && (b.id != "" || b.name != "") then StartTool(k) else this
    }

    /** Tool input goes out at once when the block is started, and is held back otherwise. */
    function AddInput(k: int, args: string): Emitter
      requires k in toolBlocks
    {
      var b := toolBlocks[k];
      if args == "" then this
      else if b.started then Write(InputJsonDelta(b.blockIndex, args))
      else this.(toolBlocks := toolBlocks[k := b.(pendingJSON := b.pendingJSON + args)])
    }

    function WriteCall(c: ToolCallDelta): Emitter {
      Touch(c.index).Label(c.index, c.id, c.name).StartIfLabelled(c.index)
        .AddInput(c.index, c.arguments)
    }

    /** The stop events of the tools in `ks`, each started first if it never was. */
    function StopTools(ks: seq<int>): Emitter
      decreases |ks|
    {
      if ks == [] then this
      else if ks[0] !in toolBlocks then StopTools(ks[1..])
      else
        var s := StartTool(ks[0]);
        s.Write(BlockStop(s.toolBlocks[ks[0]].blockIndex)).StopTools(ks[1..])
    }

    /** The end of the message. The flag `textStarted` is read but not cleared here. */
    function Finish(stopReason: string): Emitter {
      var s := if textStarted then Write(BlockStop(textBlockIndex)) else this;
      s.StopTools(toolOrder)
       .Write(MessageDelta(if stopReason == "" then "end_turn" else stopReason))
       .Write(MessageStop)
    }
  }

  function SyntheticId(messageId: string, k: int): string {
    "toolu_" + messageId + "_" + IntText(k)
  }

  /** Ids made up for two tools of one message differ. */
  lemma MadeUpIdsDiffer(messageId: string, j: int, k: int)
    ensures SyntheticId(messageId, j) == SyntheticId(messageId, k) <==> j == k
    ensures "toolu_" + messageId + "_" <= SyntheticId(messageId, k)
  {
    var prefix := "toolu_" + messageId + "_";
    assert SyntheticId(messageId, j)[|prefix|..] == IntText(j) && SyntheticId(messageId, k)[|prefix|..] == IntText(k);
    if IntText(j) == IntText(k) {
      IntTextInjective(j, k);
    }
  }

  function NewEmitter(id: string): Emitter {
    Emitter(id, 0, -1, false, map[], [], []).Write(MessageStart)
  }

  /** A stream, flattened to what the emitter reacts to, in order. */
  datatype Action = TextAction(text: string) | CallAction(call: ToolCallDelta)

  function Apply(s: Emitter, a: Action): Emitter {
    match a
    case TextAction(t) => s.WriteText(t)
    case CallAction(c) => s.WriteCall(c)
  }

  function Run(s: Emitter, acts: seq<Action>): Emitter {
    if acts == [] then s else Apply(Run(s, acts[..|acts| - 1]), acts[|acts| - 1])
  }

  lemma RunSnoc(s: Emitter, acts: seq<Action>, a: Action)
    ensures Run(s, acts + [a]) == Apply(Run(s, acts), a)
  {
    assert (acts + [a])[..|acts|] == acts;
  }

  lemma {:induction false} RunAppend(s: Emitter, a: seq<Action>, b: seq<Action>)
    ensures Run(s, a + b) == Run(Run(s, a), b)
    decreases |b|
  {
    if b == [] {
      assert a + b == a;
    } else {
      RunAppend(s, a, b[..|b| - 1]);
      LastOfJoin(a, b);
    }
  }

  function TextActions(fragments: seq<string>): seq<Action> {
    seq(|fragments|, i requires 0 <= i < |fragments| => TextAction(fragments[i]))
  }

  function CallActions(calls: seq<ToolCallDelta>): seq<Action> {
    seq(|calls|, i requires 0 <= i < |calls| => CallAction(calls[i]))
  }

  lemma TextActionsSnoc(fragments: seq<string>, i: nat)
    requires i < |fragments|
    ensures TextActions(fragments[..i + 1]) == TextActions(fragments[..i]) + [TextAction(fragments[i])]
  {
  }

  lemma CallActionsSnoc(calls: seq<ToolCallDelta>, i: nat)
    requires i < |calls|
    ensures CallActions(calls[..i + 1]) == CallActions(calls[..i]) + [CallAction(calls[i])]
  {
  }

  function ChoiceActions(c: Choice): seq<Action> {
    TextActions(TextFragments(c.delta)) + CallActions(c.delta.toolCalls)
  }

  function ChunkActions(choices: seq<Choice>): seq<Action> {
    if choices == [] then []
    else ChunkActions(choices[..|choices| - 1]) + ChoiceActions(choices[|choices| - 1])
  }

  lemma RunChoice(s: Emitter, before: seq<Action>, c: Choice)
    ensures Run(s, before + ChoiceActions(c))
         == Run(Run(Run(s, before), TextActions(TextFragments(c.delta))), CallActions(c.delta.toolCalls))
  {
    RunAppend(s, before, ChoiceActions(c));
    RunAppend(Run(s, before), TextActions(TextFragments(c.delta)), CallActions(c.delta.toolCalls));
  }

  /** OpenAI finish reasons as Anthropic stop reasons. */
  function StopReason(finishReason: string): string {
    match finishReason
    case "length" => "max_tokens"
    case "tool_calls" => "tool_use"
    case "content_filter" => "refusal"
    case _ => "end_turn"
  }

  /** The stop reason after some choices: that of the last finish reason seen, if any. */
  function ChunkReason(choices: seq<Choice>, before: string): string {
    if choices == [] then before
    else
      var last := choices[|choices| - 1];
      if last.finishReason != "" then StopReason(last.finishReason)
      else ChunkReason(choices[..|choices| - 1], before)
  }

  /** The stream up to its `[DONE]` line, or all of it. */
  function LineActions(lines: seq<Line>): seq<Action>
    decreases |lines|
  {
    if lines == [] || lines[0].Done? then []
    else (if lines[0].Data? then ChunkActions(lines[0].chunk.choices) else [])
         + LineActions(lines[1..])
  }

  function LineReason(lines: seq<Line>, before: string): string
    decreases |lines|
  {
    if lines == [] || lines[0].Done? then before
    else
      LineReason(lines[1..],
        if lines[0].Data? then ChunkReason(lines[0].chunk.choices, before) else before)
  }

  /** The emitter and the stop reason after one line that is not `[DONE]`. */
  lemma LineStep(s: Emitter, reason: string, lines: seq<Line>)
    requires lines != [] && !lines[0].Done?
    ensures var choices := if lines[0].Data? then lines[0].chunk.choices else [];
      && Run(s, LineActions(lines)) == Run(Run(s, ChunkActions(choices)), LineActions(lines[1..]))
      && LineReason(lines, reason) == LineReason(lines[1..], ChunkReason(choices, reason))
      && HasDone(lines) == HasDone(lines[1..])
  {
    var choices := if lines[0].Data? then lines[0].chunk.choices else [];
    RunAppend(s, ChunkActions(choices), LineActions(lines[1..]));
  }

  /** The stream has its `[DONE]` line. */
  predicate HasDone(lines: seq<Line>) {
    lines != [] && (lines[0].Done? || HasDone(lines[1..]))
  }

  /** Line by line: emitter, stop reason, and whether `[DONE]` was met. */
  function ReadLines(s: Emitter, reason: string, lines: seq<Line>): (Emitter, string, bool)
    decreases |lines|
  {
    if lines == [] then (s, reason, false)
    else if lines[0].Done? then (s, reason, true)
    else if lines[0].Noise? then ReadLines(s, reason, lines[1..])
    else
      var choices := lines[0].chunk.choices;
      ReadLines(Run(s, ChunkActions(choices)), ChunkReason(choices, reason), lines[1..])
  }

  lemma {:induction false} ReadLinesIs(s: Emitter, reason: string, lines: seq<Line>)
    ensures ReadLines(s, reason, lines) == (Run(s, LineActions(lines)), LineReason(lines, reason), HasDone(lines))
    decreases |lines|
  {
    if lines != [] && !lines[0].Done? {
      LineStep(s, reason, lines);
      var choices := if lines[0].Data? then lines[0].chunk.choices else [];
      ReadLinesIs(Run(s, ChunkActions(choices)), ChunkReason(choices, reason), lines[1..]);
    }
  }

  /** What a client is sent for the upstream stream `lines`. */
  function Translation(id: string, lines: seq<Line>): seq<Event> {
    Run(NewEmitter(id), LineActions(lines)).Finish(LineReason(lines, "end_turn")).out
  }

  /** What the client has been sent in the end: nothing more once a read fails before `[DONE]`. */
  function Delivered(id: string, lines: seq<Line>, readError: Option<string>): seq<Event> {
    if readError.Some? && !HasDone(lines) then Run(NewEmitter(id), LineActions(lines)).out
    else Translation(id, lines)
  }

  /** The emitter as the program runs it: fields updated in place, events written as they come. */
  class StreamState {
    const id: string
    var nextBlockIndex: int
    var textBlockIndex: int
    var textStarted: bool
    var toolBlocks: map<int, ToolState>
    var toolOrder: seq<int>
    var w: seq<Event>

    ghost function State(): Emitter
      reads this
    {
      Emitter(id, nextBlockIndex, textBlockIndex, textStarted, toolBlocks, toolOrder, w)
    }

    constructor (id: string)
      ensures State() == Emitter(id, 0, -1, false, map[], [], [])
    {
      this.id := id;
      nextBlockIndex, textBlockIndex, textStarted := 0, -1, false;
      toolBlocks, toolOrder, w := map[], [], [];
    }

    method WriteEvent(e: Event)
      modifies this`w
      ensures State() == old(State()).Write(e)
    {
      w := w + [e];
    }

    method WriteTextDelta(text: string)
      modifies this
      ensures State() == old(State()).WriteText(text)
    {
      if text == "" {
        return;
      }
      if !textStarted {
        textBlockIndex := nextBlockIndex;
        nextBlockIndex := nextBlockIndex + 1;
        textStarted := true;
        WriteEvent(TextBlockStart(textBlockIndex));
      }
      WriteEvent(TextDelta(textBlockIndex, text));
    }

    method StartToolBlock(k: int)
      requires k in toolBlocks
      modifies this
      ensures State() == old(State()).StartTool(k)
    {
      if toolBlocks[k].started {
        return;
      }
      if textStarted {
        WriteEvent(BlockStop(textBlockIndex));
        textStarted := false;
        textBlockIndex := -1;
      }
      var block := toolBlocks[k].(blockIndex := nextBlockIndex, started := true);
      nextBlockIndex := nextBlockIndex + 1;
      if block.id == "" {
        block := block.(id := SyntheticId(id, k));
      }
      if block.name == "" {
        block := block.(name := "tool");
      }
      WriteEvent(ToolBlockStart(block.blockIndex, block.id, block.name));
      var pending := block.pendingJSON;
      toolBlocks := toolBlocks[k := block.(pendingJSON := "")];
      if pending != "" {
        WriteToolInputDelta(k, pending);
      }
    }

    method WriteToolInputDelta(k: int, partialJSON: string)
      requires k in toolBlocks
      modifies this`w
      ensures State() == old(State()).Write(InputJsonDelta(toolBlocks[k].blockIndex, partialJSON))
    {
      WriteEvent(InputJsonDelta(toolBlocks[k].blockIndex, partialJSON));
    }

    method WriteToolCallDelta(call: ToolCallDelta)
      modifies this
      ensures State() == old(State()).WriteCall(call)
    {
      var k := call.index;
      if k !in toolBlocks {
        toolBlocks := toolBlocks[k := NEW_TOOL];
        toolOrder := toolOrder + [k];
      }
      var block := toolBlocks[k];
      if call.id != "" {
        block := block.(id := call.id);
      }
      if call.name != "" {
        block := block.(name := call.name);
      }
      toolBlocks := toolBlocks[k := block];
      assert State() == old(State()).Touch(k).Label(k, call.id, call.name);
      if !block.started && (block.id != "" || block.name != "") {
        StartToolBlock(k);
      }
      assert State() == old(State()).Touch(k).Label(k, call.id, call.name).StartIfLabelled(k);
      if call.arguments != "" {
        if toolBlocks[k].started {
          WriteToolInputDelta(k, call.arguments);
        } else {
          block := toolBlocks[k];
          toolBlocks := toolBlocks[k := block.(pendingJSON := block.pendingJSON + call.arguments)];
        }
      }
    }

    method WriteTextFragments(fragments: seq<string>)
      modifies this
      ensures State() == Run(old(State()), TextActions(fragments))
    {
      ghost var s0 := State();
      for i := 0 to |fragments|
        invariant State() == Run(s0, TextActions(fragments[..i]))
      {
        WriteTextDelta(fragments[i]);
        TextActionsSnoc(fragments, i);
        RunSnoc(s0, TextActions(fragments[..i]), TextAction(fragments[i]));
      }
      assert fragments[..|fragments|] == fragments;
    }

    method WriteToolCallDeltas(calls: seq<ToolCallDelta>)
      modifies this
      ensures State() == Run(old(State()), CallActions(calls))
    {
      ghost var s0 := State();
      for i := 0 to |calls|
        invariant State() == Run(s0, CallActions(calls[..i]))
      {
        WriteToolCallDelta(calls[i]);
        CallActionsSnoc(calls, i);
        RunSnoc(s0, CallActions(calls[..i]), CallAction(calls[i]));
      }
      assert calls[..|calls|] == calls;
    }

    method WriteOpenAIChunk(chunk: Chunk, stopReason: string) returns (reason: string)
      modifies this
      ensures State() == Run(old(State()), ChunkActions(chunk.choices))
      ensures reason == ChunkReason(chunk.choices, stopReason)
    {
      ghost var s0 := State();
      reason := stopReason;
      var choices := chunk.choices;
      for i := 0 to |choices|
        invariant State() == Run(s0, ChunkActions(choices[..i]))
        invariant reason == ChunkReason(choices[..i], stopReason)
      {
        WriteTextFragments(TextFragments(choices[i].delta));
        WriteToolCallDeltas(choices[i].delta.toolCalls);
        if choices[i].finishReason != "" {
          reason := StopReason(choices[i].finishReason);
        }
        TakeOneMore(choices, i);
        RunChoice(s0, ChunkActions(choices[..i]), choices[i]);
      }
      assert choices[..|choices|] == choices;
    }

    /** The read loop: up to the `[DONE]` line or the end of the stream. */
    method WriteLines(lines: seq<Line>) returns (stopReason: string, done: bool)
      modifies this
      ensures State() == Run(old(State()), LineActions(lines))
      ensures stopReason == LineReason(lines, "end_turn")
      ensures done == HasDone(lines)
    {
      ghost var goal := ReadLines(State(), "end_turn", lines);
      ReadLinesIs(State(), "end_turn", lines);
      stopReason := "end_turn";
      var i := 0;
      while i < |lines| && !lines[i].Done?
        invariant 0 <= i <= |lines|
        invariant ReadLines(State(), stopReason, lines[i..]) == goal
      {
        DropOneMore(lines, i);
        if lines[i].Data? {
          stopReason := WriteOpenAIChunk(lines[i].chunk, stopReason);
        }
        i := i + 1;
      }
      done := i < |lines|;
    }

    method Finish(stopReason: string)
      modifies this
      ensures State() == old(State()).Finish(stopReason)
    {
      ghost var goal := old(State()).Finish(stopReason);
      if textStarted {
        WriteEvent(BlockStop(textBlockIndex));
      }
      var order := toolOrder;
      ghost var stopped := State().StopTools(order);
      for i := 0 to |order|
        invariant State().StopTools(order[i..]) == stopped
      {
        var k := order[i];
        assert order[i..][1..] == order[i + 1..];
        if k in toolBlocks {
          StartToolBlock(k);
          WriteEvent(BlockStop(toolBlocks[k].blockIndex));
        }
      }
      assert order[|order|..] == [];
      WriteEvent(MessageDelta(if stopReason == "" then "end_turn" else stopReason));
      WriteEvent(MessageStop);
    }
  }

  /** `proxyOpenAIStreamAsAnthropic`; `readError` is the error that ended the lines, if one did. */
  method ProxyOpenAIStreamAsAnthropic(id: string, lines: seq<Line>, readError: Option<string>)
    returns (out: seq<Event>, failure: Option<string>)
    ensures out == Delivered(id, lines, readError)
    ensures failure == if HasDone(lines) then None else readError
  {
    var state := new StreamState(id);
    state.WriteEvent(MessageStart);
    var stopReason, done := state.WriteLines(lines);
    if !done && readError.Some? {
      return state.w, readError;
    }
    state.Finish(stopReason);
    out, failure := state.w, None;
  }
}
