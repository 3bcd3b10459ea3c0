/** `proxyAnthropicStreamAsOpenAI`: Anthropic stream events in, OpenAI stream lines out. */
module OpenAIBridge {
  import opened Text
  import opened AnthropicStream
  import opened OpenAIStream
  import E = Emitter

  /** Anthropic stop reasons as OpenAI finish reasons. */
  function FinishReason(reason: string): string {
    match reason
    case "max_tokens" => "length"
    case "tool_use" => "tool_calls"
    case "refusal" => "content_filter"
    case _ => "stop"
  }

  function DeltaLine(d: Delta): Line {
    Data(Chunk([Choice(d, "")]))
  }

  const ROLE_LINE := DeltaLine(EMPTY_DELTA.(role := "assistant"))

  function ContentLine(text: string): Line {
    DeltaLine(EMPTY_DELTA.(content := Str(text)))
  }

  function CallLine(c: ToolCallDelta): Line {
    DeltaLine(EMPTY_DELTA.(toolCalls := [c]))
  }

  function FinishLine(reason: string): Line {
    Data(Chunk([Choice(EMPTY_DELTA, reason)]))
  }

  /** The chunk without choices that carries token usage. */
  const USAGE_LINE := Data(Chunk([]))

  /** The proxy's local variables; `failure` is set once the upstream reports an error. */
  datatype Bridge = Bridge(
    id: string, includeUsage: bool, toolIndexByBlock: map<int, int>, toolBlockCount: int,
    finishReason: string, finished: bool, out: seq<Line>, failure: Option<string>)
  {
    function Write(line: Line): Bridge {
      this.(out := out + [line])
    }

    function Finish(): Bridge {
      if finished then this
      else
        this.(finished := true,
              out := out + [FinishLine(finishReason)]
                   + (if includeUsage then [USAGE_LINE] else []) + [Done])
    }

    function StartTool(block: int, toolId: string, name: string): Bridge {
      var k := toolBlockCount;
      this.(toolBlockCount := k + 1, toolIndexByBlock := toolIndexByBlock[block := k])
          .Write(CallLine(ToolCallDelta(k, FallbackString(toolId, E.SyntheticId(id, k)),
                                        FallbackString(name, "tool"), "")))
    }

    function Step(e: Event): Bridge {
      if failure.Some? then this
      else
        match e
        case MessageStart => Write(ROLE_LINE)
        case ToolBlockStart(i, toolId, name) => StartTool(i, toolId, name)
        case TextDelta(_, text) => if text == "" then this else Write(ContentLine(text))
        case InputJsonDelta(i, json) =>
          if json == "" || i !in toolIndexByBlock then this
          else Write(CallLine(ToolCallDelta(toolIndexByBlock[i], "", "", json)))
        case MessageDelta(reason) =>
          if reason == "" then this else this.(finishReason := FinishReason(reason))
        case MessageStop => Finish()
        case StreamError(message) =>
          this.(failure := Some(FallbackString(message, "upstream Anthropic stream error")))
        case _ => this
    }
  }

  function NewBridge(id: string, includeUsage: bool): Bridge {
    Bridge(id, includeUsage, map[], 0, "stop", false, [], None)
  }

  function Run(b: Bridge, es: seq<Event>): Bridge {
    if es == [] then b else Run(b, es[..|es| - 1]).Step(es[|es| - 1])
  }

  /** The whole proxy: at end of input the message is finished, unless an error ended it, reported
      by the upstream or met in reading. */
  function Proxy(id: string, includeUsage: bool, es: seq<Event>, readError: Option<string>): Bridge {
    var b := Run(NewBridge(id, includeUsage), es);
    if b.failure.Some? then b
    else if readError.Some? then b.(failure := readError)
    else b.Finish()
  }

  method ProxyAnthropicStreamAsOpenAI(id: string, includeUsage: bool, events: seq<Event>, readError: Option<string>)
    returns (lines: seq<Line>, failure: Option<string>)
    ensures lines == Proxy(id, includeUsage, events, readError).out
    ensures failure == Proxy(id, includeUsage, events, readError).failure
  {
    var toolIndexByBlock: map<int, int>, toolBlockCount := map[], 0;
    var finishReason, finished := "stop", false;
    lines := [];
    ghost var b0 := NewBridge(id, includeUsage);
    for i := 0 to |events|
      invariant Bridge(id, includeUsage, toolIndexByBlock, toolBlockCount, finishReason, finished,
                       lines, None) == Run(b0, events[..i])
    {
      TakeOneMore(events, i);
      RunSnoc(b0, events[..i], events[i]);
      if events[i].StreamError? {
        failure := Some(FallbackString(events[i].message, "upstream Anthropic stream error"));
        ErrorEnds(Run(b0, events[..i]), events[i]);
        FailureIsFinal(b0, events, i + 1);
        return;
      }
      toolIndexByBlock, toolBlockCount, finishReason, finished, lines := TakeEvent(
        id, includeUsage, events[i], toolIndexByBlock, toolBlockCount, finishReason, finished, lines);
    }
    assert events[..|events|] == events;
    failure := readError;
    if readError.None? && !finished {
      lines := FinishLines(lines, finishReason, includeUsage);
    }
  }

  /** The switch over one event that is no error, on the loop's variables. */
  method TakeEvent(id: string, includeUsage: bool, event: Event, indices: map<int, int>, count: int, reason: string,
                   done: bool, before: seq<Line>)
    returns (toolIndexByBlock: map<int, int>, toolBlockCount: int, finishReason: string, finished: bool,
             lines: seq<Line>)
    requires !event.StreamError?
    ensures Bridge(id, includeUsage, toolIndexByBlock, toolBlockCount, finishReason, finished, lines, None)
      == Bridge(id, includeUsage, indices, count, reason, done, before, None).Step(event)
  {
    toolIndexByBlock, toolBlockCount, finishReason, finished, lines := indices, count, reason, done, before;
    match event
    case MessageStart =>
      lines := lines + [ROLE_LINE];
    case ToolBlockStart(block, toolId, name) =>
      var toolIndex := toolBlockCount;
      toolBlockCount := toolBlockCount + 1;
      toolIndexByBlock := toolIndexByBlock[block := toolIndex];
      lines := lines + [CallLine(ToolCallDelta(toolIndex,
        FallbackString(toolId, E.SyntheticId(id, toolIndex)), FallbackString(name, "tool"), ""))];
    case TextDelta(_, text) =>
      if text != "" {
        lines := lines + [ContentLine(text)];
      }
    case InputJsonDelta(block, partial) =>
      if partial != "" && block in toolIndexByBlock {
        lines := lines + [CallLine(ToolCallDelta(toolIndexByBlock[block], "", "", partial))];
      }
    case MessageDelta(stop) =>
      if stop != "" {
        finishReason := FinishReason(stop);
      }
    case MessageStop =>
      if !finished {
        finished := true;
        lines := FinishLines(lines, finishReason, includeUsage);
      }
    case _ =>
  }

  /** The lines `finish` writes. */
  method FinishLines(before: seq<Line>, finishReason: string, includeUsage: bool) returns (lines: seq<Line>)
    ensures lines == before + [FinishLine(finishReason)] + (if includeUsage then [USAGE_LINE] else []) + [Done]
  {
    lines := before + [FinishLine(finishReason)];
    if includeUsage {
      lines := lines + [USAGE_LINE];
    }
    lines := lines + [Done];
  }

  lemma FailureIsFinal(b: Bridge, es: seq<Event>, n: nat)
    requires n <= |es| && Run(b, es[..n]).failure.Some?
    ensures Run(b, es) == Run(b, es[..n])
  {
    FailureStays(Run(b, es[..n]), es[n..]);
    assert es[..n] + es[n..] == es;
    RunAppend(b, es[..n], es[n..]);
  }

  lemma RunSnoc(b: Bridge, es: seq<Event>, e: Event)
    ensures Run(b, es + [e]) == Run(b, es).Step(e)
  {
    assert (es + [e])[..|es|] == es;
  }

  lemma {:induction false} RunAppend(b: Bridge, es: seq<Event>, more: seq<Event>)
    ensures Run(b, es + more) == Run(Run(b, es), more)
    decreases |more|
  {
    if more == [] {
      assert es + more == es;
    } else {
      RunAppend(b, es, more[..|more| - 1]);
      LastOfJoin(es, more);
    }
  }

  lemma {:induction false} FailureStays(b: Bridge, es: seq<Event>)
    requires b.failure.Some?
    ensures Run(b, es) == b
    decreases |es|
  {
    if es != [] {
      FailureStays(b, es[..|es| - 1]);
    }
  }

  // ---------------------------------------------------------------- the terminator

  /** Block indices that were announced as tool blocks. */
  function ToolBlocks(es: seq<Event>): set<int> {
    if es == [] then {}
    else
      var e := es[|es| - 1];
      ToolBlocks(es[..|es| - 1]) + if e.ToolBlockStart? then {e.index} else {}
  }

  /** Whether event `e`, coming after `es`, makes the proxy write a content line. */
  predicate WritesContent(es: seq<Event>, e: Event) {
    match e
    case MessageStart => true
    case ToolBlockStart(_, _, _) => true
    case TextDelta(_, text) => text != ""
    case InputJsonDelta(i, json) => json != "" && i in ToolBlocks(es)
    case _ => false
  }

  predicate Ended(es: seq<Event>) {
    es != [] && (Ended(es[..|es| - 1]) || es[|es| - 1] == MessageStop)
  }

  /** Some event after a `message_stop` still carries content. */
  predicate ContentAfterStop(es: seq<Event>) {
    es != [] &&
    var front, e := es[..|es| - 1], es[|es| - 1];
    ContentAfterStop(front) || (Ended(front) && WritesContent(front, e))
  }

  predicate Fails(es: seq<Event>) {
    exists e :: e in es && e.StreamError?
  }

  /** How many `[DONE]` lines there are. */
  function DoneCount(lines: seq<Line>): nat {
    multiset(lines)[Done]
  }

  /** The last line is `[DONE]`. */
  predicate EndsDone(lines: seq<Line>) {
    lines != [] && lines[|lines| - 1] == Done
  }

  /** The proxy's flags and the place of `[DONE]`, read off the input. */
  ghost predicate Terminated(b: Bridge, es: seq<Event>) {
    && b.failure == None
    && b.toolIndexByBlock.Keys == ToolBlocks(es)
    && (b.finished <==> Ended(es))
    && DoneCount(b.out) == (if b.finished then 1 else 0)
    && (b.finished ==> (EndsDone(b.out) <==> !ContentAfterStop(es)))
    && (!b.finished ==> !ContentAfterStop(es))
  }

  lemma OneMoreLine(out: seq<Line>, line: Line)
    ensures DoneCount(out + [line]) == DoneCount(out) + if line == Done then 1 else 0
  {
  }

  lemma FinishTerminates(b: Bridge)
    requires !b.finished
    ensures var f := b.Finish();
      EndsDone(f.out) && DoneCount(f.out) == DoneCount(b.out) + 1
  {
    var o1 := b.out + [FinishLine(b.finishReason)];
    var o2 := if b.includeUsage then o1 + [USAGE_LINE] else o1;
    OneMoreLine(b.out, FinishLine(b.finishReason));
    OneMoreLine(o1, USAGE_LINE);
    OneMoreLine(o2, Done);
    assert b.Finish().out == o2 + [Done];
  }

  /** An event that is not a stop writes nothing, or one line that is not `[DONE]`. */
  lemma StepWrites(b: Bridge, es: seq<Event>, e: Event)
    requires b.failure == None && b.toolIndexByBlock.Keys == ToolBlocks(es)
    requires e != MessageStop && !e.StreamError?
    ensures WritesContent(es, e) ==>
      exists line :: line != Done && b.Step(e).out == b.out + [line]
    ensures !WritesContent(es, e) ==> b.Step(e).out == b.out
    ensures b.Step(e).finished == b.finished && b.Step(e).failure == None
    ensures b.Step(e).toolIndexByBlock.Keys == ToolBlocks(es) + if e.ToolBlockStart? then {e.index} else {}
  {
    if WritesContent(es, e) {
      var line := b.Step(e).out[|b.out|];
      assert line != Done && b.Step(e).out == b.out + [line];
    }
  }

  lemma HistorySnoc(es: seq<Event>, e: Event)
    ensures ToolBlocks(es + [e]) == ToolBlocks(es) + if e.ToolBlockStart? then {e.index} else {}
    ensures Ended(es + [e]) <==> Ended(es) || e == MessageStop
    ensures ContentAfterStop(es + [e]) <==> ContentAfterStop(es) || (Ended(es) && WritesContent(es, e))
  {
    assert (es + [e])[..|es|] == es;
  }

  lemma TerminatedStop(b: Bridge, es: seq<Event>)
    requires Terminated(b, es)
    ensures Terminated(b.Step(MessageStop), es + [MessageStop])
  {
    HistorySnoc(es, MessageStop);
    if !b.finished {
      FinishTerminates(b);
    }
  }

  lemma TerminatedStep(b: Bridge, es: seq<Event>, e: Event)
    requires Terminated(b, es) && e != MessageStop && !e.StreamError?
    ensures Terminated(b.Step(e), es + [e])
  {
    HistorySnoc(es, e);
    StepWrites(b, es, e);
    var b' := b.Step(e);
    if WritesContent(es, e) {
      var line :| line != Done && b'.out == b.out + [line];
      OneMoreLine(b.out, line);
      assert !EndsDone(b'.out);
    }
  }

  lemma {:induction false} TerminatedRun(id: string, includeUsage: bool, es: seq<Event>)
    requires !Fails(es)
    ensures Terminated(Run(NewBridge(id, includeUsage), es), es)
    decreases |es|
  {
    if es != [] {
      var front, e := es[..|es| - 1], es[|es| - 1];
      assert es == front + [e];
      TerminatedRun(id, includeUsage, front);
      var b := Run(NewBridge(id, includeUsage), front);
      if e == MessageStop {
        TerminatedStop(b, front);
      } else {
        assert e in es;
        TerminatedStep(b, front, e);
      }
    }
  }

  /** The events before the upstream reports an error. */
  function Heard(es: seq<Event>): (r: seq<Event>)
    ensures r <= es
    ensures forall e :: e in r ==> !e.StreamError?
    ensures r == es || es[|r|].StreamError?
  {
    if es == [] || es[0].StreamError? then [] else [es[0]] + Heard(es[1..])
  }

  lemma HeardDecides(id: string, includeUsage: bool, es: seq<Event>)
    requires Fails(es)
    ensures var b := Run(NewBridge(id, includeUsage), es);
      b.failure.Some? && b.out == Run(NewBridge(id, includeUsage), Heard(es)).out
  {
    var b0, n := NewBridge(id, includeUsage), |Heard(es)|;
    assert Heard(es) == es[..n];
    TerminatedRun(id, includeUsage, es[..n]);
    TakeOneMore(es, n);
    RunSnoc(b0, es[..n], es[n]);
    ErrorEnds(Run(b0, es[..n]), es[n]);
    FailureIsFinal(b0, es, n + 1);
  }

  lemma ErrorEnds(b: Bridge, e: Event)
    requires b.failure == None && e.StreamError?
    ensures b.Step(e).failure == Some(FallbackString(e.message, "upstream Anthropic stream error"))
    ensures b.Step(e).out == b.out
  {
  }

  /** MAIN RESULT. For every input `[DONE]` is written once or never: once exactly when the message
      stops, or the input ends without an error, before the upstream reports one. It is then the
      last line exactly when no content comes after a `message_stop`. */
  lemma DoneLastExactly(id: string, includeUsage: bool, es: seq<Event>, readError: Option<string>)
    ensures var lines := Proxy(id, includeUsage, es, readError).out;
      var done := Ended(Heard(es)) || (!Fails(es) && readError.None?);
      && DoneCount(lines) == (if done then 1 else 0)
      && (EndsDone(lines) <==> done && !ContentAfterStop(Heard(es)))
  {
    var heard := Heard(es);
    TerminatedRun(id, includeUsage, heard);
    var b := Run(NewBridge(id, includeUsage), heard);
    if Fails(es) {
      HeardDecides(id, includeUsage, es);
    } else {
      assert heard == es;
      if readError.None? && !b.finished {
        FinishTerminates(b);
      }
    }
    if DoneCount(b.out) == 0 {
      NoDoneNoEnd(b.out);
    }
  }

  lemma NoDoneNoEnd(lines: seq<Line>)
    requires DoneCount(lines) == 0
    ensures !EndsDone(lines)
  {
    assert forall l :: l in lines ==> l in multiset(lines);
  }

  /** Text after the end of the message is written after `[DONE]`. */
  lemma ContentAfterDone(id: string, includeUsage: bool)
    ensures var lines := Proxy(id, includeUsage, [MessageStop, TextDelta(0, "y")], None).out;
      DoneCount(lines) == 1 && !EndsDone(lines)
  {
    var stop := [MessageStop];
    var es := stop + [TextDelta(0, "y")];
    assert es == [MessageStop, TextDelta(0, "y")];
    HistorySnoc([], MessageStop);
    assert [] + [MessageStop] == stop;
    HistorySnoc(stop, TextDelta(0, "y"));
    assert !Fails(es);
    assert Heard(es) == es;
    DoneLastExactly(id, includeUsage, es, None);
  }

  // ---------------------------------------------------------------- line by line

  /** How many tools have started, and the number of the last that started at block `i`. */
  function Starts(es: seq<Event>): nat {
    if es == [] then 0 else Starts(es[..|es| - 1]) + if es[|es| - 1].ToolBlockStart? then 1 else 0
  }

  function NumberAt(es: seq<Event>, i: int): Option<nat> {
    if es == [] then None
    else if es[|es| - 1].ToolBlockStart? && es[|es| - 1].index == i then Some(Starts(es[..|es| - 1]))
    else NumberAt(es[..|es| - 1], i)
  }

  /** The finish reason for the last stop reason the upstream gave. */
  function LastFinish(es: seq<Event>): string {
    if es == [] then "stop"
    else if es[|es| - 1].MessageDelta? && es[|es| - 1].stopReason != "" then FinishReason(es[|es| - 1].stopReason)
    else LastFinish(es[..|es| - 1])
  }

  /** A line with one choice, whose delta has a role, a text and calls. */
  function ChoiceLine(role: string, content: TextField, calls: seq<ToolCallDelta>, finishReason: string): Line {
    Data(Chunk([Choice(Delta(role, content, Absent, Absent, calls), finishReason)]))
  }

  function ClosingLines(includeUsage: bool, es: seq<Event>): seq<Line> {
    [ChoiceLine("", Absent, [], LastFinish(es))] + (if includeUsage then [Data(Chunk([]))] else []) + [Done]
  }

  /** What event `e` writes when `es` came before it, read off the events alone. */
  function Written(id: string, includeUsage: bool, es: seq<Event>, e: Event): seq<Line> {
    match e
    case MessageStart => [ChoiceLine("assistant", Absent, [], "")]
    case TextDelta(_, text) => if text == "" then [] else [ChoiceLine("", Str(text), [], "")]
    case ToolBlockStart(_, toolId, name) =>
      var madeUp := "toolu_" + id + "_" + IntText(Starts(es));
      var call := ToolCallDelta(Starts(es), if Blank(toolId) then madeUp else toolId,
                                if Blank(name) then "tool" else name, "");
      [ChoiceLine("", Absent, [call], "")]
    case InputJsonDelta(i, json) =>
      if json == "" || NumberAt(es, i).None? then []
      else [ChoiceLine("", Absent, [ToolCallDelta(NumberAt(es, i).value, "", "", json)], "")]
    case MessageStop => if Ended(es) then [] else ClosingLines(includeUsage, es)
    case _ => []
  }

  function Transcript(id: string, includeUsage: bool, es: seq<Event>): seq<Line> {
    if es == [] then []
    else
      var front, e := es[..|es| - 1], es[|es| - 1];
      Transcript(id, includeUsage, front) + Written(id, includeUsage, front, e)
  }

  /** The proxy's variables, read off the events. */
  ghost predicate Knows(b: Bridge, id: string, includeUsage: bool, es: seq<Event>) {
    && b.failure == None && b.id == id && b.includeUsage == includeUsage
    && b.toolBlockCount == Starts(es)
    && (forall i :: i in b.toolIndexByBlock <==> NumberAt(es, i).Some?)
    && (forall i :: i in b.toolIndexByBlock ==> Some(b.toolIndexByBlock[i]) == NumberAt(es, i))
    && b.finishReason == LastFinish(es)
    && (b.finished <==> Ended(es))
  }

  lemma KnowsStop(b: Bridge, id: string, includeUsage: bool, es: seq<Event>)
    requires Knows(b, id, includeUsage, es)
    ensures Knows(b.Step(MessageStop), id, includeUsage, es + [MessageStop])
    ensures b.Step(MessageStop).out == b.out + Written(id, includeUsage, es, MessageStop)
  {
    WithoutLast(es, MessageStop);
    WithNothing(b.out);
    if !b.finished {
      var finish, usage := [FinishLine(b.finishReason)], if includeUsage then [USAGE_LINE] else [];
      Associative(b.out, finish, usage);
      Associative(b.out, finish + usage, [Done]);
    }
  }

  lemma KnowsStep(b: Bridge, id: string, includeUsage: bool, es: seq<Event>, e: Event)
    requires Knows(b, id, includeUsage, es) && !e.StreamError?
    ensures Knows(b.Step(e), id, includeUsage, es + [e])
    ensures b.Step(e).out == b.out + Written(id, includeUsage, es, e)
  {
    if e == MessageStop {
      KnowsStop(b, id, includeUsage, es);
    } else {
      WithoutLast(es, e);
      WithNothing(b.out);
    }
  }

  lemma {:induction false} KnowsRun(id: string, includeUsage: bool, es: seq<Event>)
    requires !Fails(es)
    ensures Knows(Run(NewBridge(id, includeUsage), es), id, includeUsage, es)
    ensures Run(NewBridge(id, includeUsage), es).out == Transcript(id, includeUsage, es)
    decreases |es|
  {
    if es != [] {
      var front, e := es[..|es| - 1], es[|es| - 1];
      assert e in es && forall x :: x in front ==> x in es;
      KnowsRun(id, includeUsage, front);
      KnowsStep(Run(NewBridge(id, includeUsage), front), id, includeUsage, front, e);
      LastOf(es);
    }
  }

  /** MAIN RESULT. For every input, the lines are those the events write one by one until the upstream
      reports an error, closed at the first `message_stop`, or at the end of an input without one and
      without an error; and the error is the upstream's, by its message, or else the one met in reading. */
  lemma TranscribesExactly(id: string, includeUsage: bool, es: seq<Event>, readError: Option<string>)
    ensures var heard := Heard(es);
      Proxy(id, includeUsage, es, readError).out
        == Transcript(id, includeUsage, heard)
         + if heard == es && readError.None? && !Ended(es) then ClosingLines(includeUsage, es) else []
    ensures Proxy(id, includeUsage, es, readError).failure ==
      if Heard(es) == es then readError
      else
        var message := es[|Heard(es)|].message;
        Some(if Blank(message) then "upstream Anthropic stream error" else message)
  {
    var heard := Heard(es);
    KnowsRun(id, includeUsage, heard);
    WithNothing(Transcript(id, includeUsage, heard));
    if heard == es {
      KnowsEnd(Run(NewBridge(id, includeUsage), es), id, includeUsage, es);
    } else {
      FirstErrorDecides(id, includeUsage, es);
    }
  }

  lemma KnowsEnd(b: Bridge, id: string, includeUsage: bool, es: seq<Event>)
    requires Knows(b, id, includeUsage, es)
    ensures b.Finish().out == b.out + if Ended(es) then [] else ClosingLines(includeUsage, es)
    ensures b.Finish().failure == None
  {
    if b.finished {
      WithNothing(b.out);
    } else {
      KnowsStop(b, id, includeUsage, es);
    }
  }

  lemma FirstErrorDecides(id: string, includeUsage: bool, es: seq<Event>)
    requires Heard(es) != es
    ensures var b, heard := Run(NewBridge(id, includeUsage), es), Heard(es);
      && b.out == Run(NewBridge(id, includeUsage), heard).out
      && b.failure == Some(FallbackString(es[|heard|].message, "upstream Anthropic stream error"))
  {
    var b0, n := NewBridge(id, includeUsage), |Heard(es)|;
    assert Heard(es) == es[..n] && !Fails(es[..n]);
    KnowsRun(id, includeUsage, es[..n]);
    TakeOneMore(es, n);
    RunSnoc(b0, es[..n], es[n]);
    ErrorEnds(Run(b0, es[..n]), es[n]);
    FailureIsFinal(b0, es, n + 1);
  }
}
