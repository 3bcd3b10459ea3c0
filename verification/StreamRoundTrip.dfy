/** An Anthropic stream sent through both bridges, to OpenAI and back. */
module StreamRoundTrip {
  import opened Text
  import opened AnthropicStream
  import opened OpenAIStream
  import opened Emitter
  import opened EmitterSafety
  import B = OpenAIBridge

  /** A block of a sequential stream: it is started, filled part by part and stopped before the
      next one begins. Its index is whatever the upstream says. */
  datatype Source =
    | SourceText(index: int, parts: seq<string>)
    | SourceTool(index: int, id: string, name: string, parts: seq<string>)
    | SourceOther(index: int, deltas: nat)

  function PartEvent(b: Source, part: string): Event
    requires !b.SourceOther?
  {
    if b.SourceText? then TextDelta(b.index, part) else InputJsonDelta(b.index, part)
  }

  function PartEvents(b: Source, parts: seq<string>): seq<Event>
    requires !b.SourceOther?
  {
    if parts == [] then []
    else PartEvents(b, parts[..|parts| - 1]) + [PartEvent(b, parts[|parts| - 1])]
  }

  function BlockEvents(b: Source): seq<Event> {
    match b
    case SourceText(i, parts) => [TextBlockStart(i)] + PartEvents(b, parts) + [BlockStop(i)]
    case SourceTool(i, id, name, parts) =>
      [ToolBlockStart(i, id, name)] + PartEvents(b, parts) + [BlockStop(i)]
    case SourceOther(i, n) => [OtherBlockStart(i)] + seq(n, _ => OtherDelta(i)) + [BlockStop(i)]
  }

  function Events(bs: seq<Source>): seq<Event> {
    if bs == [] then [] else Events(bs[..|bs| - 1]) + BlockEvents(bs[|bs| - 1])
  }

  function ReasonEvents(reasons: seq<string>): seq<Event> {
    if reasons == [] then []
    else ReasonEvents(reasons[..|reasons| - 1]) + [MessageDelta(reasons[|reasons| - 1])]
  }

  /** A sequential stream: its blocks, its message deltas and its end; what follows is `tail`. */
  function Stream(bs: seq<Source>, reasons: seq<string>, tail: seq<Event>): seq<Event> {
    [MessageStart] + Events(bs) + ReasonEvents(reasons) + [MessageStop] + tail
  }

  /** The events without pings and other noise. */
  function Quiet(es: seq<Event>): seq<Event> {
    if es == [] then []
    else Quiet(es[..|es| - 1]) + if es[|es| - 1].Ping? then [] else [es[|es| - 1]]
  }

  /** The last reason that is not empty. */
  function LastReason(reasons: seq<string>): string {
    if reasons == [] then ""
    else
      var last := reasons[|reasons| - 1];
      if last != "" then last else LastReason(reasons[..|reasons| - 1])
  }

  /** Tools have a non-blank id and name. */
  predicate Named(b: Source) {
    b.SourceTool? ==> !Blank(b.id) && !Blank(b.name)
  }

  // ---------------------------------------------------------------- what should arrive

  /** The blocks with something to say, in order: thinking and empty text are dropped. */
  function Kept(bs: seq<Source>): seq<Block> {
    if bs == [] then []
    else
      Kept(bs[..|bs| - 1])
      + match bs[|bs| - 1]
        case SourceText(_, parts) => if Concat(parts) == "" then [] else [TextBlock(Concat(parts))]
        case SourceTool(_, id, name, parts) => [ToolBlock(id, name, Concat(parts))]
        case SourceOther(_, _) => []
  }

  /** Put `b` after `bs`, as part of the last block when both are text. */
  function Push(bs: seq<Block>, b: Block): seq<Block> {
    if b.TextBlock? && EndsInText(bs) then
      bs[..|bs| - 1] + [TextBlock(bs[|bs| - 1].text + b.text)]
    else bs + [b]
  }

  predicate EndsInText(bs: seq<Block>) {
    bs != [] && bs[|bs| - 1].TextBlock?
  }

  /** Adjacent text blocks made one. */
  function Merged(bs: seq<Block>): seq<Block> {
    if bs == [] then [] else Push(Merged(bs[..|bs| - 1]), bs[|bs| - 1])
  }

  /** The four reasons both protocols know survive; any other becomes "end_turn". */
  function KeptReason(reason: string): string {
    if reason in ["max_tokens", "tool_use", "refusal"] then reason else "end_turn"
  }

  // ---------------------------------------------------------------- Anthropic to OpenAI

  function ToolCount(bs: seq<Source>): nat {
    if bs == [] then 0
    else ToolCount(bs[..|bs| - 1]) + if bs[|bs| - 1].SourceTool? then 1 else 0
  }

  /** What stands for one part of a block; `k` is the number of the tool. */
  function PartAction(b: Source, k: int, part: string): seq<Action>
    requires !b.SourceOther?
  {
    if part == "" then []
    else if b.SourceText? then [TextAction(part)]
    else [CallAction(ToolCallDelta(k, "", "", part))]
  }

  function PartActions(b: Source, k: int, parts: seq<string>): seq<Action>
    requires !b.SourceOther?
  {
    if parts == [] then []
    else PartActions(b, k, parts[..|parts| - 1]) + PartAction(b, k, parts[|parts| - 1])
  }

  function BlockActions(b: Source, k: int): seq<Action> {
    match b
    case SourceText(_, parts) => PartActions(b, k, parts)
    case SourceTool(_, id, name, parts) =>
      [CallAction(ToolCallDelta(k, id, name, ""))] + PartActions(b, k, parts)
    case SourceOther(_, _) => []
  }

  function Actions(bs: seq<Source>): seq<Action> {
    if bs == [] then []
    else
      Actions(bs[..|bs| - 1]) + BlockActions(bs[|bs| - 1], ToolCount(bs[..|bs| - 1]))
  }

  predicate NoDone(lines: seq<Line>) {
    forall l :: l in lines ==> !l.Done?
  }

  lemma {:induction false} LinesAppend(a: seq<Line>, b: seq<Line>, reason: string)
    requires NoDone(a)
    ensures LineActions(a + b) == LineActions(a) + LineActions(b)
    ensures LineReason(a + b, reason) == LineReason(b, LineReason(a, reason))
    decreases |a|
  {
    if a == [] {
      assert a + b == b;
    } else {
      FirstOfJoin(a, b);
      var reason' := if a[0].Data? then ChunkReason(a[0].chunk.choices, reason) else reason;
      LinesAppend(a[1..], b, reason');
      if a[0].Data? {
        Associative(ChunkActions(a[0].chunk.choices), LineActions(a[1..]), LineActions(b));
      }
    }
  }

  /** What the OpenAI lines written so far stand for. */
  ghost predicate Carries(b: B.Bridge, acts: seq<Action>, tools: int) {
    && NoDone(b.out)
    && LineActions(b.out) == acts
    && LineReason(b.out, "end_turn") == "end_turn"
    && b.toolBlockCount == tools
    && b.finishReason == "stop" && !b.finished && b.failure == None
  }

  lemma OneLine(d: Delta)
    ensures LineActions([B.DeltaLine(d)]) == TextActions(TextFragments(d)) + CallActions(d.toolCalls)
    ensures LineReason([B.DeltaLine(d)], "end_turn") == "end_turn"
  {
    var choices := [Choice(d, "")];
    assert choices[..0] == [];
    assert ChunkActions(choices) == ChunkActions([]) + ChoiceActions(choices[0]);
    assert [B.DeltaLine(d)][1..] == [];
    assert ChunkReason(choices, "end_turn") == ChunkReason([], "end_turn");
  }

  lemma CarriesWrite(b: B.Bridge, acts: seq<Action>, tools: int, d: Delta)
    requires Carries(b, acts, tools)
    ensures Carries(b.Write(B.DeltaLine(d)),
                    acts + TextActions(TextFragments(d)) + CallActions(d.toolCalls), tools)
  {
    OneLine(d);
    LinesAppend(b.out, [B.DeltaLine(d)], "end_turn");
    Associative(acts, TextActions(TextFragments(d)), CallActions(d.toolCalls));
  }

  lemma CarriesText(b: B.Bridge, acts: seq<Action>, tools: int, text: string)
    requires Carries(b, acts, tools) && text != ""
    ensures Carries(b.Write(B.ContentLine(text)), acts + [TextAction(text)], tools)
  {
    var d := EMPTY_DELTA.(content := Str(text));
    CarriesWrite(b, acts, tools, d);
    assert NonEmpty([text]) == [text] + NonEmpty([]);
    assert TextFragments(d) == [text];
    assert TextActions([text]) == [TextAction(text)];
    assert acts + [TextAction(text)] + CallActions([]) == acts + [TextAction(text)];
  }

  lemma CarriesCall(b: B.Bridge, acts: seq<Action>, tools: int, c: ToolCallDelta)
    requires Carries(b, acts, tools)
    ensures Carries(b.Write(B.CallLine(c)), acts + [CallAction(c)], tools)
  {
    var d := EMPTY_DELTA.(toolCalls := [c]);
    CarriesWrite(b, acts, tools, d);
    assert TextFragments(d) == [];
    assert CallActions([c]) == [CallAction(c)];
    assert acts + TextActions([]) + [CallAction(c)] == acts + [CallAction(c)];
  }

  lemma CarriesPart(b: B.Bridge, acts: seq<Action>, tools: int, s: Source, k: int, part: string)
    requires Carries(b, acts, tools) && !s.SourceOther?
    requires s.SourceTool? ==> s.index in b.toolIndexByBlock && b.toolIndexByBlock[s.index] == k
    ensures Carries(b.Step(PartEvent(s, part)), acts + PartAction(s, k, part), tools)
    ensures b.Step(PartEvent(s, part)).toolIndexByBlock == b.toolIndexByBlock
  {
    if part == "" {
      assert acts + [] == acts;
    } else if s.SourceText? {
      CarriesText(b, acts, tools, part);
    } else {
      CarriesCall(b, acts, tools, ToolCallDelta(k, "", "", part));
    }
  }

  lemma {:induction false} CarriesParts(b: B.Bridge, acts: seq<Action>, tools: int, s: Source,
                                        k: int, parts: seq<string>)
    requires Carries(b, acts, tools) && !s.SourceOther?
    requires s.SourceTool? ==> s.index in b.toolIndexByBlock && b.toolIndexByBlock[s.index] == k
    ensures Carries(B.Run(b, PartEvents(s, parts)), acts + PartActions(s, k, parts), tools)
    ensures B.Run(b, PartEvents(s, parts)).toolIndexByBlock == b.toolIndexByBlock
    decreases |parts|
  {
    if parts == [] {
      assert acts + [] == acts;
    } else {
      var front, last := parts[..|parts| - 1], parts[|parts| - 1];
      CarriesParts(b, acts, tools, s, k, front);
      B.RunSnoc(b, PartEvents(s, front), PartEvent(s, last));
      CarriesPart(B.Run(b, PartEvents(s, front)), acts + PartActions(s, k, front), tools, s, k, last);
      Associative(acts, PartActions(s, k, front), PartAction(s, k, last));
    }
  }

  lemma {:induction false} QuietEvents(b: B.Bridge, es: seq<Event>)
    requires forall e :: e in es ==> e.OtherBlockStart? || e.OtherDelta? || e.BlockStop? || e.TextBlockStart?
    ensures B.Run(b, es) == b
    decreases |es|
  {
    if es != [] {
      assert es[|es| - 1] in es;
      QuietEvents(b, es[..|es| - 1]);
    }
  }

  /** Start, parts and stop of one block, one after the other. */
  lemma RunBlock(b: B.Bridge, start: Event, middle: seq<Event>, stop: Event)
    ensures B.Run(b, [start] + middle + [stop]) == B.Run(b.Step(start), middle).Step(stop)
  {
    B.RunAppend(b, [start], middle);
    B.RunSnoc(b, [], start);
    assert [] + [start] == [start];
    B.RunSnoc(b, [start] + middle, stop);
  }

  lemma CarriesToolStart(b: B.Bridge, acts: seq<Action>, tools: int, i: int, id: string, name: string)
    requires Carries(b, acts, tools) && !Blank(id) && !Blank(name)
    ensures var b' := b.Step(ToolBlockStart(i, id, name));
      && Carries(b', acts + [CallAction(ToolCallDelta(tools, id, name, ""))], tools + 1)
      && i in b'.toolIndexByBlock && b'.toolIndexByBlock[i] == tools
  {
    var b0 := b.(toolBlockCount := tools + 1, toolIndexByBlock := b.toolIndexByBlock[i := tools]);
    assert Carries(b0, acts, tools + 1);
    CarriesCall(b0, acts, tools + 1, ToolCallDelta(tools, id, name, ""));
  }

  /** The parts and the stop of a block that has been started. */
  lemma CarriesRest(b: B.Bridge, start: Event, acts: seq<Action>, tools: int, s: Source, k: int)
    requires !s.SourceOther? && Carries(b.Step(start), acts, tools)
    requires s.SourceTool? ==>
      s.index in b.Step(start).toolIndexByBlock && b.Step(start).toolIndexByBlock[s.index] == k
    ensures Carries(B.Run(b, [start] + PartEvents(s, s.parts) + [BlockStop(s.index)]),
                    acts + PartActions(s, k, s.parts), tools)
  {
    RunBlock(b, start, PartEvents(s, s.parts), BlockStop(s.index));
    CarriesParts(b.Step(start), acts, tools, s, k, s.parts);
    StopIsQuiet(B.Run(b.Step(start), PartEvents(s, s.parts)), s.index);
  }

  lemma StopIsQuiet(b: B.Bridge, i: int)
    ensures b.Step(BlockStop(i)) == b
  {
  }

  lemma CarriesToolBlock(b: B.Bridge, acts: seq<Action>, tools: int, s: Source)
    requires Carries(b, acts, tools) && s.SourceTool? && Named(s)
    ensures Carries(B.Run(b, BlockEvents(s)), acts + BlockActions(s, tools), tools + 1)
  {
    var call := [CallAction(ToolCallDelta(tools, s.id, s.name, ""))];
    CarriesToolStart(b, acts, tools, s.index, s.id, s.name);
    CarriesRest(b, ToolBlockStart(s.index, s.id, s.name), acts + call, tools + 1, s, tools);
    Associative(acts, call, PartActions(s, tools, s.parts));
  }

  lemma CarriesBlock(b: B.Bridge, acts: seq<Action>, tools: int, s: Source)
    requires Carries(b, acts, tools) && Named(s)
    ensures Carries(B.Run(b, BlockEvents(s)), acts + BlockActions(s, tools),
                    tools + if s.SourceTool? then 1 else 0)
  {
    if s.SourceText? {
      CarriesRest(b, TextBlockStart(s.index), acts, tools, s, tools);
    } else if s.SourceTool? {
      CarriesToolBlock(b, acts, tools, s);
    } else {
      QuietEvents(b, BlockEvents(s));
      assert acts + [] == acts;
    }
  }

  lemma {:induction false} CarriesBlocks(b: B.Bridge, bs: seq<Source>)
    requires Carries(b, [], 0)
    requires forall s :: s in bs ==> Named(s)
    ensures Carries(B.Run(b, Events(bs)), Actions(bs), ToolCount(bs))
    decreases |bs|
  {
    if bs != [] {
      var front := bs[..|bs| - 1];
      CarriesBlocks(b, front);
      assert bs[|bs| - 1] in bs;
      B.RunAppend(b, Events(front), BlockEvents(bs[|bs| - 1]));
      CarriesBlock(B.Run(b, Events(front)), Actions(front), ToolCount(front), bs[|bs| - 1]);
    }
  }

  lemma {:induction false} OutOnlyGrows(b: B.Bridge, es: seq<Event>)
    ensures b.out <= B.Run(b, es).out && (b.finished ==> B.Run(b, es).finished)
    decreases |es|
  {
    if es != [] {
      OutOnlyGrows(b, es[..|es| - 1]);
      StepGrows(B.Run(b, es[..|es| - 1]), es[|es| - 1]);
    }
  }

  lemma StepGrows(b: B.Bridge, e: Event)
    ensures b.out <= b.Step(e).out && (b.finished ==> b.Step(e).finished)
  {
  }

  lemma {:induction false} ReadUpToDone(a: seq<Line>, tail: seq<Line>, reason: string)
    requires NoDone(a)
    ensures LineActions(a + [Done] + tail) == LineActions(a)
    ensures LineReason(a + [Done] + tail, reason) == LineReason(a, reason)
  {
    assert a + [Done] + tail == a + ([Done] + tail);
    LinesAppend(a, [Done] + tail, reason);
    assert LineActions(a) + [] == LineActions(a);
  }

  /** The lines before `[DONE]`, written by the two closing events. */
  function ClosingLines(reason: string, includeUsage: bool): seq<Line> {
    [B.FinishLine(if reason == "" then "stop" else B.FinishReason(reason))]
    + if includeUsage then [B.USAGE_LINE] else []
  }

  lemma FinishLineReads(finish: string)
    requires finish != ""
    ensures LineActions([B.FinishLine(finish)]) == []
    ensures LineReason([B.FinishLine(finish)], "end_turn") == StopReason(finish)
  {
    var choices := [Choice(EMPTY_DELTA, finish)];
    assert choices[..0] == [];
    assert TextFragments(EMPTY_DELTA) == [];
    assert ChunkActions(choices) == ChunkActions([]) + ChoiceActions(choices[0]);
    assert [B.FinishLine(finish)][1..] == [];
  }

  lemma UsageLineReads(reason: string)
    ensures LineActions([B.USAGE_LINE]) == []
    ensures LineReason([B.USAGE_LINE], reason) == reason
  {
    assert [B.USAGE_LINE][1..] == [];
  }

  /** Translated to OpenAI and back, a stop reason is kept or becomes "end_turn". */
  lemma ReasonRoundTrip(reason: string)
    ensures StopReason(B.FinishReason(reason)) == KeptReason(reason)
    ensures B.FinishReason(reason) in {"stop", "length", "tool_calls", "content_filter"}
  {
  }

  lemma ClosingReason(reason: string, includeUsage: bool)
    ensures NoDone(ClosingLines(reason, includeUsage))
    ensures LineActions(ClosingLines(reason, includeUsage)) == []
    ensures LineReason(ClosingLines(reason, includeUsage), "end_turn") == KeptReason(reason)
  {
    var finish := if reason == "" then "stop" else B.FinishReason(reason);
    ReasonRoundTrip(reason);
    assert StopReason(finish) == KeptReason(reason);
    var first := B.FinishLine(finish);
    var rest := if includeUsage then [B.USAGE_LINE] else [];
    FinishLineReads(finish);
    UsageLineReads(StopReason(finish));
    assert LineReason(rest, StopReason(finish)) == StopReason(finish);
    assert LineActions(rest) == [];
    LinesAppend([first], rest, "end_turn");
  }

  /** Noise can stand anywhere. */
  lemma {:induction false} PingsAreNothing(b: B.Bridge, es: seq<Event>)
    ensures B.Run(b, es) == B.Run(b, Quiet(es))
    decreases |es|
  {
    if es != [] {
      var front, e := es[..|es| - 1], es[|es| - 1];
      PingsAreNothing(b, front);
      if e.Ping? {
        PingStep(B.Run(b, front));
        WithNothing(Quiet(front));
      } else {
        B.RunSnoc(b, Quiet(front), e);
      }
    }
  }

  lemma PingStep(b: B.Bridge)
    ensures b.Step(Ping) == b
  {
  }

  /** Of several message deltas the last reason counts. */
  lemma {:induction false} LastReasonCounts(b: B.Bridge, reasons: seq<string>)
    requires b.failure == None
    ensures B.Run(b, ReasonEvents(reasons)) == b.(finishReason :=
      if LastReason(reasons) == "" then b.finishReason else B.FinishReason(LastReason(reasons)))
    decreases |reasons|
  {
    if reasons != [] {
      var front, last := reasons[..|reasons| - 1], reasons[|reasons| - 1];
      LastReasonCounts(b, front);
      B.RunSnoc(b, ReasonEvents(front), MessageDelta(last));
      DeltaStep(B.Run(b, ReasonEvents(front)), last);
    }
  }

  lemma DeltaStep(b: B.Bridge, reason: string)
    requires b.failure == None
    ensures b.Step(MessageDelta(reason)) == if reason == "" then b else b.(finishReason := B.FinishReason(reason))
  {
  }

  lemma RunStream(b: B.Bridge, bs: seq<Source>, reasons: seq<string>, tail: seq<Event>)
    ensures var b2 := B.Run(b.Step(MessageStart), Events(bs));
      && B.Run(b, Stream(bs, reasons, tail))
         == B.Run(B.Run(b2, ReasonEvents(reasons)).Step(MessageStop), tail)
      && b2.includeUsage == b.includeUsage
  {
    var es1 := [MessageStart] + Events(bs);
    RunOpening(b, Events(bs));
    B.RunAppend(b, es1, ReasonEvents(reasons));
    B.RunSnoc(b, es1 + ReasonEvents(reasons), MessageStop);
    B.RunAppend(b, es1 + ReasonEvents(reasons) + [MessageStop], tail);
    KeepsUsageOption(b, es1);
  }

  lemma RunOpening(b: B.Bridge, es: seq<Event>)
    ensures B.Run(b, [MessageStart] + es) == B.Run(b.Step(MessageStart), es)
  {
    WithNothing([MessageStart]);
    B.RunSnoc(b, [], MessageStart);
    B.RunAppend(b, [MessageStart], es);
  }

  lemma CarriesStart(id: string, includeUsage: bool)
    ensures Carries(B.NewBridge(id, includeUsage).Step(MessageStart), [], 0)
  {
    var d := EMPTY_DELTA.(role := "assistant");
    CarriesWrite(B.NewBridge(id, includeUsage), [], 0, d);
    assert TextFragments(d) == [];
  }

  /** The closing events write the closing lines and `[DONE]`. */
  lemma CarriesClose(b: B.Bridge, acts: seq<Action>, tools: int, reasons: seq<string>)
    requires Carries(b, acts, tools)
    ensures var b' := B.Run(b, ReasonEvents(reasons)).Step(MessageStop);
      b'.out == b.out + ClosingLines(LastReason(reasons), b.includeUsage) + [Done] && b'.finished
  {
    LastReasonCounts(b, reasons);
    var finish := if LastReason(reasons) == "" then b.finishReason else B.FinishReason(LastReason(reasons));
    StopWrites(b.(finishReason := finish));
  }

  lemma StopWrites(b: B.Bridge)
    requires b.failure == None && !b.finished
    ensures var b' := b.Step(MessageStop);
      && b'.finished
      && b'.out == b.out + ([B.FinishLine(b.finishReason)] + if b.includeUsage then [B.USAGE_LINE] else []) + [Done]
  {
    Associative(b.out, [B.FinishLine(b.finishReason)], if b.includeUsage then [B.USAGE_LINE] else []);
  }

  /** The OpenAI side of the trip: up to `[DONE]` the lines stand for the blocks, in order. */
  lemma BridgeCarries(id: string, includeUsage: bool, es: seq<Event>, bs: seq<Source>,
                      reasons: seq<string>, tail: seq<Event>, readError: Option<string>)
    requires Quiet(es) == Stream(bs, reasons, tail)
    requires forall s :: s in bs ==> Named(s)
    ensures var lines := B.Proxy(id, includeUsage, es, readError).out;
      && LineActions(lines) == Actions(bs)
      && LineReason(lines, "end_turn") == KeptReason(LastReason(reasons))
  {
    var b0 := B.NewBridge(id, includeUsage);
    PingsAreNothing(b0, es);
    CarriesStart(id, includeUsage);
    CarriesBlocks(b0.Step(MessageStart), bs);
    var b2 := B.Run(b0.Step(MessageStart), Events(bs));
    var b3 := B.Run(b2, ReasonEvents(reasons)).Step(MessageStop);
    RunStream(b0, bs, reasons, tail);
    CarriesClose(b2, Actions(bs), ToolCount(bs), reasons);
    OutOnlyGrows(b3, tail);
    var lines := B.Run(b3, tail).out;
    AfterPrefix(b3.out, lines);
    ClosedLines(b2.out, LastReason(reasons), includeUsage, lines[|b3.out|..]);
  }

  lemma ClosedLines(out: seq<Line>, reason: string, includeUsage: bool, rest: seq<Line>)
    requires NoDone(out) && LineReason(out, "end_turn") == "end_turn"
    ensures var lines := out + ClosingLines(reason, includeUsage) + [Done] + rest;
      LineActions(lines) == LineActions(out) && LineReason(lines, "end_turn") == KeptReason(reason)
  {
    var closing := ClosingLines(reason, includeUsage);
    ClosingReason(reason, includeUsage);
    LinesAppend(out, closing, "end_turn");
    ReadUpToDone(out + closing, rest, "end_turn");
    WithNothing(LineActions(out));
  }

  lemma {:induction false} KeepsUsageOption(b: B.Bridge, es: seq<Event>)
    ensures B.Run(b, es).includeUsage == b.includeUsage
    decreases |es|
  {
    if es != [] {
      KeepsUsageOption(b, es[..|es| - 1]);
    }
  }

  // ---------------------------------------------------------------- OpenAI to Anthropic

  /** The client holds `blocks`; `n` tools were sent, all of them started. */
  ghost predicate Arrived(s: Emitter, blocks: seq<Block>, n: nat) {
    && Sync(s)
    && Read(s.out).blocks == blocks
    && (s.textStarted <==> EndsInText(blocks))
    && (forall k :: k in s.toolBlocks <==> 0 <= k < n)
    && (forall k :: k in s.toolBlocks ==> s.toolBlocks[k].started)
  }

  lemma ArrivesText(s: Emitter, blocks: seq<Block>, n: nat, text: string)
    requires Arrived(s, blocks, n) && text != ""
    ensures Arrived(s.WriteText(text), Push(blocks, TextBlock(text)), n)
  {
    SyncText(s, text);
    TextOpens(s, blocks, n);
    var t := s.OpenText();
    var open := if s.textStarted then blocks else blocks + [TextBlock("")];
    ReadAppend(t.out, TextDelta(t.textBlockIndex, text));
    TextGrows(blocks, open, text);
  }

  lemma TextOpens(s: Emitter, blocks: seq<Block>, n: nat)
    requires Arrived(s, blocks, n)
    ensures var t := s.OpenText();
      && Sync(t) && t.textStarted && t.toolBlocks == s.toolBlocks
      && Read(t.out).blocks == if s.textStarted then blocks else blocks + [TextBlock("")]
  {
    SyncOpenText(s);
    if !s.textStarted {
      ReadAppend(s.out, TextBlockStart(s.nextBlockIndex));
    }
  }

  lemma TextGrows(blocks: seq<Block>, open: seq<Block>, text: string)
    requires open == if EndsInText(blocks) then blocks else blocks + [TextBlock("")]
    ensures EndsInText(open)
    ensures open[|open| - 1 := TextBlock(open[|open| - 1].text + text)] == Push(blocks, TextBlock(text))
  {
    WithNothing(text);
  }

  /** A fresh, labelled tool: its block is the newest. */
  lemma ArrivesTool(s: Emitter, blocks: seq<Block>, n: nat, id: string, name: string)
    requires Arrived(s, blocks, n) && id != "" && name != ""
    ensures var t := s.WriteCall(ToolCallDelta(n, id, name, ""));
      && Arrived(t, blocks + [ToolBlock(id, name, "")], n + 1)
      && t.toolBlocks[n].blockIndex == |blocks|
  {
    SyncCall(s, ToolCallDelta(n, id, name, ""));
    ToolStarts(s, |blocks|, n, id, name);
    TextCloses(s, blocks, n);
    ReadAppend(s.CloseText().out, ToolBlockStart(|blocks|, id, name));
  }

  lemma TextCloses(s: Emitter, blocks: seq<Block>, n: nat)
    requires Arrived(s, blocks, n)
    ensures Read(s.CloseText().out).blocks == blocks && Read(s.CloseText().out).phase.Streaming?
  {
    SyncCloseText(s);
    if s.textStarted {
      ReadAppend(s.out, BlockStop(s.textBlockIndex));
    }
  }

  /** A new tool with a label starts at once. */
  lemma ToolStarts(s: Emitter, next: nat, n: nat, id: string, name: string)
    requires n !in s.toolBlocks && s.nextBlockIndex == next && id != "" && name != ""
    ensures var t := s.WriteCall(ToolCallDelta(n, id, name, ""));
      && t.out == s.CloseText().out + [ToolBlockStart(next, id, name)]
      && n in t.toolBlocks && t.toolBlocks[n] == ToolState(id, name, next, "", true)
      && t.toolBlocks.Keys == s.toolBlocks.Keys + {n}
      && (forall k :: k in s.toolBlocks ==> t.toolBlocks[k] == s.toolBlocks[k])
      && t.toolOrder == s.toolOrder + [n] && !t.textStarted && t.nextBlockIndex == next + 1
  {
  }

  function AddJson(blocks: seq<Block>, json: string): seq<Block>
    requires blocks != [] && blocks[|blocks| - 1].ToolBlock?
  {
    var b := blocks[|blocks| - 1];
    blocks[|blocks| - 1 := b.(json := b.json + json)]
  }

  /** Tool `k` owns the newest block. */
  ghost predicate Newest(s: Emitter, blocks: seq<Block>, k: int) {
    && k in s.toolBlocks && s.toolBlocks[k].blockIndex == |blocks| - 1
    && blocks != [] && blocks[|blocks| - 1].ToolBlock?
  }

  lemma ArrivesInput(s: Emitter, blocks: seq<Block>, n: nat, k: int, json: string)
    requires Arrived(s, blocks, n) && Newest(s, blocks, k) && json != ""
    ensures var t := s.WriteCall(ToolCallDelta(k, "", "", json));
      Arrived(t, AddJson(blocks, json), n) && Newest(t, AddJson(blocks, json), k)
  {
    var e := InputJsonDelta(|blocks| - 1, json);
    BareInput(s, k, json);
    SyncInput(s, k, json);
    assert |blocks| - 1 in StartedBlocks(s.toolBlocks);
    ReadAppend(s.out, e);
  }

  /** Arguments without a label go straight to the block of a started tool. */
  lemma BareInput(s: Emitter, k: int, json: string)
    requires k in s.toolBlocks && s.toolBlocks[k].started && json != ""
    ensures s.WriteCall(ToolCallDelta(k, "", "", json)) == s.Write(InputJsonDelta(s.toolBlocks[k].blockIndex, json))
  {
    assert s.toolBlocks[k := s.toolBlocks[k]] == s.toolBlocks;
    assert s.Touch(k).Label(k, "", "") == s;
  }

  lemma ConcatSnoc(parts: seq<string>)
    requires parts != []
    ensures Concat(parts) == Concat(parts[..|parts| - 1]) + parts[|parts| - 1]
  {
    var front, last := parts[..|parts| - 1], parts[|parts| - 1];
    assert parts == front + [last];
    ConcatAppend(front, [last]);
    assert Concat([last]) == last + Concat([]);
  }

  function PushText(blocks: seq<Block>, text: string): seq<Block> {
    if text == "" then blocks else Push(blocks, TextBlock(text))
  }

  lemma PushTwice(blocks: seq<Block>, a: string, b: string)
    ensures PushText(PushText(blocks, a), b) == PushText(blocks, a + b)
  {
    assert a + "" == a && "" + b == b;
    if a != "" && b != "" && EndsInText(blocks) {
      var t := blocks[|blocks| - 1].text;
      assert (t + a) + b == t + (a + b);
    }
  }

  lemma {:induction false} ArrivesTexts(s: Emitter, blocks: seq<Block>, n: nat, b: Source,
                                        parts: seq<string>)
    requires Arrived(s, blocks, n) && b.SourceText?
    ensures Arrived(Run(s, PartActions(b, n, parts)), PushText(blocks, Concat(parts)), n)
    decreases |parts|
  {
    if parts != [] {
      var front, last := parts[..|parts| - 1], parts[|parts| - 1];
      ArrivesTexts(s, blocks, n, b, front);
      ConcatSnoc(parts);
      PushTwice(blocks, Concat(front), last);
      var before := PartActions(b, n, front);
      if last == "" {
        assert PartActions(b, n, parts) == before;
      } else {
        RunSnoc(s, before, TextAction(last));
        ArrivesText(Run(s, before), PushText(blocks, Concat(front)), n, last);
      }
    }
  }

  lemma AddJsonTwice(blocks: seq<Block>, a: string, b: string)
    requires blocks != [] && blocks[|blocks| - 1].ToolBlock?
    ensures AddJson(AddJson(blocks, a), b) == AddJson(blocks, a + b)
    ensures AddJson(blocks, "") == blocks
  {
    var last := blocks[|blocks| - 1];
    assert (last.json + a) + b == last.json + (a + b);
    assert last.json + "" == last.json;
  }

  lemma {:induction false} ArrivesInputs(s: Emitter, blocks: seq<Block>, n: nat, k: int, b: Source,
                                         parts: seq<string>)
    requires Arrived(s, blocks, n) && Newest(s, blocks, k) && b.SourceTool?
    ensures Arrived(Run(s, PartActions(b, k, parts)), AddJson(blocks, Concat(parts)), n)
    ensures Newest(Run(s, PartActions(b, k, parts)), AddJson(blocks, Concat(parts)), k)
    decreases |parts|
  {
    if parts == [] {
      AddJsonTwice(blocks, "", "");
    } else {
      var front, last := parts[..|parts| - 1], parts[|parts| - 1];
      ArrivesInputs(s, blocks, n, k, b, front);
      ConcatSnoc(parts);
      var before := PartActions(b, k, front);
      AddJsonTwice(blocks, Concat(front), last);
      if last == "" {
        assert PartActions(b, k, parts) == before;
        assert Concat(parts) == Concat(front);
      } else {
        RunSnoc(s, before, CallAction(ToolCallDelta(k, "", "", last)));
        ArrivesInput(Run(s, before), AddJson(blocks, Concat(front)), n, k, last);
      }
    }
  }

  lemma ArrivesToolBlock(s: Emitter, blocks: seq<Block>, n: nat, b: Source)
    requires Arrived(s, blocks, n) && b.SourceTool? && Named(b)
    ensures Arrived(Run(s, BlockActions(b, n)),
                    blocks + [ToolBlock(b.id, b.name, Concat(b.parts))], n + 1)
  {
    var call := CallAction(ToolCallDelta(n, b.id, b.name, ""));
    WithNothing([call]);
    RunSnoc(s, [], call);
    ArrivesTool(s, blocks, n, b.id, b.name);
    RunAppend(s, [call], PartActions(b, n, b.parts));
    ArrivesInputs(Run(s, [call]), blocks + [ToolBlock(b.id, b.name, "")], n + 1, n, b, b.parts);
    AddToNew(blocks, b.id, b.name, Concat(b.parts));
  }

  lemma AddToNew(blocks: seq<Block>, id: string, name: string, json: string)
    ensures AddJson(blocks + [ToolBlock(id, name, "")], json) == blocks + [ToolBlock(id, name, json)]
  {
    WithNothing(json);
  }

  lemma MergedSnoc(bs: seq<Block>, b: Block)
    ensures Merged(bs + [b]) == Push(Merged(bs), b)
  {
    assert (bs + [b])[..|bs|] == bs;
  }

  lemma {:induction false} ArrivesBlocks(id: string, bs: seq<Source>)
    requires forall b :: b in bs ==> Named(b)
    ensures Arrived(Run(NewEmitter(id), Actions(bs)), Merged(Kept(bs)), ToolCount(bs))
    decreases |bs|
  {
    if bs == [] {
      SyncStart(id);
      ReadAppend([], MessageStart);
      assert NewEmitter(id).out == [] + [MessageStart];
    } else {
      var front, b := bs[..|bs| - 1], bs[|bs| - 1];
      assert b in bs;
      ArrivesBlocks(id, front);
      var s, n := Run(NewEmitter(id), Actions(front)), ToolCount(front);
      var blocks := Merged(Kept(front));
      RunAppend(NewEmitter(id), Actions(front), BlockActions(b, n));
      ArrivesBlock(s, Kept(front), n, b, bs);
    }
  }

  lemma ArrivesBlock(s: Emitter, kept: seq<Block>, n: nat, b: Source, bs: seq<Source>)
    requires bs != [] && b == bs[|bs| - 1] && kept == Kept(bs[..|bs| - 1]) && Named(b)
    requires Arrived(s, Merged(kept), n) && n == ToolCount(bs[..|bs| - 1])
    ensures Arrived(Run(s, BlockActions(b, n)), Merged(Kept(bs)), ToolCount(bs))
  {
    match b
    case SourceText(_, parts) =>
      ArrivesTexts(s, Merged(kept), n, b, parts);
      MergedSnoc(kept, TextBlock(Concat(parts)));
      WithNothing(kept);
    case SourceTool(_, toolId, name, parts) =>
      ArrivesToolBlock(s, Merged(kept), n, b);
      MergedSnoc(kept, ToolBlock(toolId, name, Concat(parts)));
    case SourceOther(_, _) =>
      WithNothing(kept);
  }

  // ---------------------------------------------------------------- the round trip

  /** MAIN RESULT. A sequential stream whose tools have ids and names, with pings anywhere and any
      number of message deltas, sent to OpenAI and back, reaches the client as a correct message
      holding the same blocks (kind, id, name, content) in the same order, up to dropped thinking,
      dropped empty text and merged adjacent text; what follows the end of the message, a
      read error included, has no effect, and the last stop reason is kept if both protocols know
      it. */
  lemma RoundTrip(openAIId: string, anthropicId: string, includeUsage: bool, es: seq<Event>,
                  bs: seq<Source>, reasons: seq<string>, tail: seq<Event>, readError: Option<string>)
    requires Quiet(es) == Stream(bs, reasons, tail)
    requires forall b :: b in bs ==> Named(b)
    ensures var lines := B.Proxy(openAIId, includeUsage, es, readError).out;
      Read(Translation(anthropicId, lines))
        == Reader(Stopped(KeptReason(LastReason(reasons))), Merged(Kept(bs)), {})
  {
    BridgeCarries(openAIId, includeUsage, es, bs, reasons, tail, readError);
    ArrivesBlocks(anthropicId, bs);
    FinishKeepsBlocks(Run(NewEmitter(anthropicId), Actions(bs)), KeptReason(LastReason(reasons)));
  }

  /** No two text blocks in a row. */
  predicate Separated(bs: seq<Block>) {
    forall i :: 0 < i < |bs| ==> !(bs[i - 1].TextBlock? && bs[i].TextBlock?)
  }

  lemma PushSeparated(bs: seq<Block>, b: Block)
    requires Separated(bs)
    ensures Separated(Push(bs, b))
  {
  }

  lemma {:induction false} MergedIsSeparated(bs: seq<Block>)
    ensures Separated(Merged(bs))
    ensures Separated(bs) ==> Merged(bs) == bs
    decreases |bs|
  {
    if bs != [] {
      var front, b := bs[..|bs| - 1], bs[|bs| - 1];
      MergedIsSeparated(front);
      PushSeparated(Merged(front), b);
      if Separated(bs) {
        assert !(b.TextBlock? && EndsInText(front));
        assert bs == front + [b];
      }
    }
  }

  /** Blocks whose text is never adjacent come back exactly as they were sent. */
  lemma RoundTripExact(openAIId: string, anthropicId: string, includeUsage: bool, es: seq<Event>,
                       bs: seq<Source>, reasons: seq<string>, tail: seq<Event>, readError: Option<string>)
    requires Quiet(es) == Stream(bs, reasons, tail)
    requires forall b :: b in bs ==> Named(b)
    requires Separated(Kept(bs))
    ensures var lines := B.Proxy(openAIId, includeUsage, es, readError).out;
      Read(Translation(anthropicId, lines)).blocks == Kept(bs)
  {
    RoundTrip(openAIId, anthropicId, includeUsage, es, bs, reasons, tail, readError);
    MergedIsSeparated(Kept(bs));
  }
}
