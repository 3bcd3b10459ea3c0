/** Nothing a stream carries is lost, repeated or reordered by the emitter: every fragment of
    text and of tool input reaches the client, whether or not the trace is well formed. */
module EmitterPayload {
  import opened Text
  import opened AnthropicStream
  import opened OpenAIStream
  import opened Emitter
  import opened EmitterSafety

  /** The input of tool `k` the emitter has taken in: sent already, or held back. */
  function Payload(s: Emitter, k: int): string {
    if k !in s.toolBlocks then ""
    else
      var b := s.toolBlocks[k];
      (if b.started then JsonDeltas(s.out, b.blockIndex) else "") + b.pendingJSON
  }

  /** Started tools have blocks of their own and nothing held back; no other block has input. */
  ghost predicate Tidy(s: Emitter) {
    && ToolsBelow(s.toolBlocks, s.nextBlockIndex)
    && s.nextBlockIndex >= 0
    && DistinctBlocks(s.toolBlocks)
    && (forall k :: k in s.toolBlocks && s.toolBlocks[k].started ==> s.toolBlocks[k].pendingJSON == "")
    && (forall i :: i !in StartedBlocks(s.toolBlocks) ==> JsonDeltas(s.out, i) == "")
  }

  /** `t` carries the same payload as `s`, plus `args` for tool `k`. */
  ghost predicate Adds(s: Emitter, t: Emitter, k: int, args: string) {
    && Tidy(t)
    && TextDeltas(t.out) == TextDeltas(s.out)
    && (forall j :: Payload(t, j) == Payload(s, j) + if j == k then args else "")
  }

  lemma AddsThen(s: Emitter, t: Emitter, u: Emitter, k: int, first: string, second: string)
    requires Adds(s, t, k, first) && Adds(t, u, k, second)
    ensures Adds(s, u, k, first + second)
  {
    forall j
      ensures Payload(u, j) == Payload(s, j) + if j == k then first + second else ""
    {
      Associative(Payload(s, j), first, second);
      assert Payload(t, j) == Payload(s, j) + if j == k then first else "";
      assert Payload(u, j) == Payload(t, j) + if j == k then second else "";
    }
  }

  lemma QuietWrite(out: seq<Event>, e: Event)
    requires !e.InputJsonDelta? && !e.TextDelta?
    ensures TextDeltas(out + [e]) == TextDeltas(out)
    ensures forall i :: JsonDeltas(out + [e], i) == JsonDeltas(out, i)
  {
    TextDeltasAppend(out, e);
    assert TextDeltas(out) + "" == TextDeltas(out);
    forall i ensures JsonDeltas(out + [e], i) == JsonDeltas(out, i) {
      JsonDeltasAppend(out, e, i);
      assert JsonDeltas(out, i) + "" == JsonDeltas(out, i);
    }
  }

  lemma InputWrite(out: seq<Event>, i: int, json: string)
    ensures TextDeltas(out + [InputJsonDelta(i, json)]) == TextDeltas(out)
    ensures forall j :: JsonDeltas(out + [InputJsonDelta(i, json)], j)
                     == JsonDeltas(out, j) + if j == i then json else ""
  {
    TextDeltasAppend(out, InputJsonDelta(i, json));
    assert TextDeltas(out) + "" == TextDeltas(out);
    forall j ensures JsonDeltas(out + [InputJsonDelta(i, json)], j)
                  == JsonDeltas(out, j) + if j == i then json else "" {
      JsonDeltasAppend(out, InputJsonDelta(i, json), j);
    }
  }

  /** An event without payload changes nothing. */
  lemma QuietTidy(s: Emitter, e: Event)
    requires Tidy(s) && !e.InputJsonDelta? && !e.TextDelta?
    ensures Tidy(s.Write(e)) && TextDeltas(s.Write(e).out) == TextDeltas(s.out)
    ensures forall j :: Payload(s.Write(e), j) == Payload(s, j)
  {
    QuietWrite(s.out, e);
  }

  lemma InputTidy(s: Emitter, k: int, json: string)
    requires Tidy(s) && k in s.toolBlocks && s.toolBlocks[k].started
    ensures Adds(s, s.Write(InputJsonDelta(s.toolBlocks[k].blockIndex, json)), k, json)
  {
    var i := s.toolBlocks[k].blockIndex;
    var t := s.Write(InputJsonDelta(i, json));
    InputWrite(s.out, i, json);
    assert i in StartedBlocks(s.toolBlocks);
    forall j ensures Payload(t, j) == Payload(s, j) + if j == k then json else "" {
      if j == k {
        assert s.toolBlocks[k].pendingJSON == "";
        assert Payload(s, k) == JsonDeltas(s.out, i);
      }
    }
  }

  /** A started block is empty until its held-back input is sent. */
  lemma StartBlockTidy(s: Emitter, k: int, b: ToolState)
    requires Tidy(s) && k in s.toolBlocks && !s.toolBlocks[k].started
    requires b.started && b.blockIndex == s.nextBlockIndex && b.pendingJSON == ""
    ensures var t := s.(nextBlockIndex := s.nextBlockIndex + 1, toolBlocks := s.toolBlocks[k := b]);
      && Tidy(t)
      && (forall j :: j != k ==> Payload(t, j) == Payload(s, j))
      && Payload(t, k) == ""
  {
    StartedBlocksAfter(s.toolBlocks, k, b);
    assert s.nextBlockIndex !in StartedBlocks(s.toolBlocks);
  }

  lemma StartToolTidy(s: Emitter, k: int)
    requires Tidy(s) && k in s.toolBlocks
    ensures Adds(s, s.StartTool(k), k, "")
    decreases s.textStarted
  {
    if !s.toolBlocks[k].started {
      if s.textStarted {
        var c := s.CloseText();
        CloseTextTidy(s, k);
        ClosedFirst(s, k);
        StartToolTidy(c, k);
        AddsNothing(s, c, c.StartTool(k), k, "");
      } else {
        StartToolAloneTidy(s, k);
      }
    }
  }

  lemma CloseTextTidy(s: Emitter, k: int)
    requires Tidy(s)
    ensures Adds(s, s.CloseText(), k, "")
  {
    if s.textStarted {
      QuietTidy(s, BlockStop(s.textBlockIndex));
    }
  }

  lemma ClosedFirst(s: Emitter, k: int)
    requires k in s.toolBlocks && !s.toolBlocks[k].started
    ensures s.StartTool(k) == s.CloseText().StartTool(k)
  {
  }

  /** What adds nothing can come first. */
  lemma AddsNothing(s: Emitter, t: Emitter, u: Emitter, k: int, args: string)
    requires Adds(s, t, k, "") && Adds(t, u, k, args)
    ensures Adds(s, u, k, args)
  {
    AddsThen(s, t, u, k, "", args);
    WithNothing(args);
  }

  lemma StartToolAloneTidy(s: Emitter, k: int)
    requires Tidy(s) && k in s.toolBlocks && !s.toolBlocks[k].started && !s.textStarted
    ensures Adds(s, s.StartTool(k), k, "")
  {
    var n, held := s.nextBlockIndex, s.toolBlocks[k].pendingJSON;
    var b := s.Started(k, n);
    StartBlockTidy(s, k, b);
    var t := s.(nextBlockIndex := n + 1, toolBlocks := s.toolBlocks[k := b]);
    var u := t.Write(ToolBlockStart(n, b.id, b.name));
    QuietTidy(t, ToolBlockStart(n, b.id, b.name));
    assert Payload(s, k) == held;
    if held != "" {
      InputTidy(u, k, held);
      assert s.StartTool(k) == u.Write(InputJsonDelta(u.toolBlocks[k].blockIndex, held));
    }
  }

  lemma WriteTextTidy(s: Emitter, text: string)
    requires Tidy(s)
    ensures Tidy(s.WriteText(text))
    ensures TextDeltas(s.WriteText(text).out) == TextDeltas(s.out) + text
    ensures forall j :: Payload(s.WriteText(text), j) == Payload(s, j)
  {
    if text != "" {
      OpenTextTidy(s);
      TextDeltaTidy(s.OpenText(), s.OpenText().textBlockIndex, text);
    }
  }

  lemma OpenTextTidy(s: Emitter)
    requires Tidy(s)
    ensures Tidy(s.OpenText()) && TextDeltas(s.OpenText().out) == TextDeltas(s.out)
    ensures forall j :: Payload(s.OpenText(), j) == Payload(s, j)
  {
    if !s.textStarted {
      QuietTidy(s, TextBlockStart(s.nextBlockIndex));
    }
  }

  lemma TextDeltaTidy(s: Emitter, i: int, text: string)
    requires Tidy(s)
    ensures var t := s.Write(TextDelta(i, text));
      Tidy(t) && TextDeltas(t.out) == TextDeltas(s.out) + text && (forall j :: Payload(t, j) == Payload(s, j))
  {
    var e := TextDelta(i, text);
    TextDeltasAppend(s.out, e);
    forall j ensures JsonDeltas(s.out + [e], j) == JsonDeltas(s.out, j) {
      JsonDeltasAppend(s.out, e, j);
    }
  }

  /** Remembering something about tool `k` that is not started: only what is held back counts. */
  lemma RememberTidy(s: Emitter, k: int, b: ToolState)
    requires Tidy(s) && (k in s.toolBlocks ==> !s.toolBlocks[k].started) && !b.started
    ensures var t := s.(toolBlocks := s.toolBlocks[k := b]);
      && Tidy(t) && Payload(t, k) == b.pendingJSON
      && (forall j :: j != k ==> Payload(t, j) == Payload(s, j))
  {
    var after := s.toolBlocks[k := b];
    forall i | i in StartedBlocks(s.toolBlocks)
      ensures i in StartedBlocks(after)
    {
      var l :| l in s.toolBlocks && s.toolBlocks[l].started && s.toolBlocks[l].blockIndex == i;
      assert after[l] == s.toolBlocks[l];
    }
    assert StartedBlocks(after) == StartedBlocks(s.toolBlocks);
  }

  /** Renaming a started tool changes no payload either. */
  lemma LabelTidy(s: Emitter, k: int, id: string, name: string)
    requires Tidy(s) && k in s.toolBlocks
    ensures Adds(s, s.Label(k, id, name), k, "")
  {
    var t := s.Label(k, id, name);
    if s.toolBlocks[k].started {
      forall i | i in StartedBlocks(s.toolBlocks)
        ensures i in StartedBlocks(t.toolBlocks)
      {
        var l :| l in s.toolBlocks && s.toolBlocks[l].started && s.toolBlocks[l].blockIndex == i;
        assert t.toolBlocks[l].started && t.toolBlocks[l].blockIndex == i;
      }
      assert StartedBlocks(t.toolBlocks) == StartedBlocks(s.toolBlocks);
    } else {
      RememberTidy(s, k, t.toolBlocks[k]);
    }
  }

  lemma AddInputTidy(s: Emitter, k: int, args: string)
    requires Tidy(s) && k in s.toolBlocks
    ensures Adds(s, s.AddInput(k, args), k, args)
  {
    var b := s.toolBlocks[k];
    if args == "" {
    } else if b.started {
      InputTidy(s, k, args);
    } else {
      RememberTidy(s, k, b.(pendingJSON := b.pendingJSON + args));
      assert Payload(s, k) == b.pendingJSON;
    }
  }

  lemma WriteCallTidy(s: Emitter, c: ToolCallDelta)
    requires Tidy(s)
    ensures Adds(s, s.WriteCall(c), c.index, c.arguments)
  {
    var k := c.index;
    var s1 := s.Touch(k);
    TouchTidy(s, k);
    var s2 := s1.Label(k, c.id, c.name);
    LabelTidy(s1, k, c.id, c.name);
    AddsNothing(s, s1, s2, k, "");
    var s3 := s2.StartIfLabelled(k);
    StartIfLabelledTidy(s2, k);
    AddsNothing(s, s2, s3, k, "");
    AddInputTidy(s3, k, c.arguments);
    AddsNothing(s, s3, s3.AddInput(k, c.arguments), k, c.arguments);
  }

  lemma TouchTidy(s: Emitter, k: int)
    requires Tidy(s)
    ensures Adds(s, s.Touch(k), k, "")
  {
    if k !in s.toolBlocks {
      RememberTidy(s, k, NEW_TOOL);
    }
  }

  lemma StartIfLabelledTidy(s: Emitter, k: int)
    requires Tidy(s) && k in s.toolBlocks
    ensures Adds(s, s.StartIfLabelled(k), k, "")
  {
    StartToolTidy(s, k);
  }

  lemma {:induction false} PayloadRun(id: string, h: seq<Action>)
    ensures var s := Run(NewEmitter(id), h);
      && Tidy(s)
      && TextDeltas(s.out) == Texts(h)
      && (forall k :: Payload(s, k) == Args(h, k))
    decreases |h|
  {
    if h == [] {
      assert NewEmitter(id).out == [] + [MessageStart];
      QuietWrite([], MessageStart);
    } else {
      var front, a := h[..|h| - 1], h[|h| - 1];
      PayloadRun(id, front);
      var s := Run(NewEmitter(id), front);
      match a
      case TextAction(t) =>
        WriteTextTidy(s, t);
        assert forall k :: Args(h, k) == Args(front, k) + "";
      case CallAction(c) =>
        WriteCallTidy(s, c);
        assert Texts(h) == Texts(front) + "";
    }
  }

  /** Starting a tool and stopping its block changes no payload. */
  lemma StopToolTidy(s: Emitter, k: int)
    requires Tidy(s) && k in s.toolBlocks
    ensures var t := s.StartTool(k);
      Adds(s, t.Write(BlockStop(t.toolBlocks[k].blockIndex)), k, "")
  {
    var t := s.StartTool(k);
    StartToolTidy(s, k);
    QuietTidy(t, BlockStop(t.toolBlocks[k].blockIndex));
  }

  lemma {:induction false} StopToolsTidy(s: Emitter, ks: seq<int>)
    requires Tidy(s)
    ensures Adds(s, s.StopTools(ks), 0, "")
    decreases |ks|
  {
    if ks != [] {
      var k := ks[0];
      if k !in s.toolBlocks {
        StopToolsTidy(s, ks[1..]);
      } else {
        var t := s.StartTool(k);
        StopToolTidy(s, k);
        StopToolsTidy(t.Write(BlockStop(t.toolBlocks[k].blockIndex)), ks[1..]);
      }
    }
  }

  /** Stopping the tools of `ks` starts each of them. */
  lemma {:induction false} StopToolsStarts(s: Emitter, ks: seq<int>)
    ensures var t := s.StopTools(ks);
      && t.toolBlocks.Keys == s.toolBlocks.Keys
      && (forall k :: k in s.toolBlocks && (s.toolBlocks[k].started || k in ks)
           ==> t.toolBlocks[k].started)
    decreases |ks|
  {
    if ks != [] {
      if ks[0] !in s.toolBlocks {
        StopToolsStarts(s, ks[1..]);
      } else {
        var t := s.StartTool(ks[0]);
        StopToolsStarts(t.Write(BlockStop(t.toolBlocks[ks[0]].blockIndex)), ks[1..]);
      }
    }
  }

  /** The end of the message starts every tool and changes no payload. */
  lemma FinishTidy(s: Emitter, reason: string)
    requires Tidy(s) && OrderOk(s)
    ensures var end := s.Finish(reason);
      && Adds(s, end, 0, "")
      && end.toolBlocks.Keys == s.toolBlocks.Keys
      && (forall k :: k in s.toolBlocks ==> end.toolBlocks[k].started)
  {
    var t := TextStopped(s);
    if s.textStarted {
      QuietTidy(s, BlockStop(s.textBlockIndex));
    }
    StopToolsTidy(t, s.toolOrder);
    StopToolsStarts(t, s.toolOrder);
    var u := t.StopTools(s.toolOrder);
    var e := MessageDelta(if reason == "" then "end_turn" else reason);
    QuietTidy(u, e);
    QuietTidy(u.Write(e), MessageStop);
  }

  /** MAIN RESULT. Whatever the input, the text deltas put together are all of its text, and
      the input deltas of each tool's block put together are all of that tool's arguments;
      every tool has a block, no two share one, and no other block carries any input. */
  lemma PayloadConserved(id: string, h: seq<Action>, reason: string)
    ensures var s := Run(NewEmitter(id), h).Finish(reason);
      && TextDeltas(s.out) == Texts(h)
      && s.toolBlocks.Keys == Seen(h)
      && (forall k :: k in Seen(h) ==>
           s.toolBlocks[k].started && JsonDeltas(s.out, s.toolBlocks[k].blockIndex) == Args(h, k))
      && DistinctBlocks(s.toolBlocks)
      && (forall i :: i !in StartedBlocks(s.toolBlocks) ==> JsonDeltas(s.out, i) == "")
  {
    var s := Run(NewEmitter(id), h);
    PayloadRun(id, h);
    SyncRun(id, h);
    TracksRun(id, h);
    FinishTidy(s, reason);
    var end := s.Finish(reason);
    forall k | k in Seen(h)
      ensures end.toolBlocks[k].started
           && JsonDeltas(end.out, end.toolBlocks[k].blockIndex) == Args(h, k)
    {
      assert Payload(end, k) == Args(h, k);
    }
  }

  // ---------------------------------------------------------------- from the chunks themselves

  lemma {:induction false} TextsAppend(a: seq<Action>, b: seq<Action>)
    ensures Texts(a + b) == Texts(a) + Texts(b)
    decreases |b|
  {
    if b == [] {
      WithNothing(a);
      WithNothing(Texts(a));
    } else {
      LastOfJoin(a, b);
      TextsAppend(a, b[..|b| - 1]);
      Associative(Texts(a), Texts(b[..|b| - 1]), if b[|b| - 1].TextAction? then b[|b| - 1].text else "");
    }
  }

  lemma {:induction false} ArgsAppend(a: seq<Action>, b: seq<Action>, k: int)
    ensures Args(a + b, k) == Args(a, k) + Args(b, k)
    decreases |b|
  {
    if b == [] {
      WithNothing(a);
      WithNothing(Args(a, k));
    } else {
      var last := b[|b| - 1];
      LastOfJoin(a, b);
      ArgsAppend(a, b[..|b| - 1], k);
      Associative(Args(a, k), Args(b[..|b| - 1], k),
        if last.CallAction? && last.call.index == k then last.call.arguments else "");
    }
  }

  lemma {:induction false} TextActionsSay(fragments: seq<string>, k: int)
    ensures Texts(TextActions(fragments)) == Concat(fragments) && Args(TextActions(fragments), k) == ""
    decreases |fragments|
  {
    if fragments != [] {
      var front, last := fragments[..|fragments| - 1], fragments[|fragments| - 1];
      TextActionsSay(front, k);
      TextActionsSnoc(fragments, |front|);
      LastOf(fragments);
      assert fragments[..|front| + 1] == fragments;
      WithoutLast(TextActions(front), TextAction(last));
      ConcatAppend(front, [last]);
      assert Concat([last]) == last + Concat([]);
    }
  }

  lemma {:induction false} CallActionsSay(calls: seq<ToolCallDelta>, k: int)
    ensures Texts(CallActions(calls)) == "" && Args(CallActions(calls), k) == CallsArguments(calls, k)
    decreases |calls|
  {
    if calls != [] {
      var front, last := calls[..|calls| - 1], calls[|calls| - 1];
      CallActionsSay(front, k);
      CallActionsSnoc(calls, |front|);
      assert calls[..|front| + 1] == calls;
      WithoutLast(CallActions(front), CallAction(last));
    }
  }

  lemma ChoiceSays(c: Choice, k: int)
    ensures Texts(ChoiceActions(c)) == DeltaText(c.delta)
    ensures Args(ChoiceActions(c), k) == CallsArguments(c.delta.toolCalls, k)
  {
    var texts, calls := TextActions(TextFragments(c.delta)), CallActions(c.delta.toolCalls);
    TextActionsSay(TextFragments(c.delta), k);
    CallActionsSay(c.delta.toolCalls, k);
    FragmentsText(c.delta);
    TextsAppend(texts, calls);
    ArgsAppend(texts, calls, k);
    WithNothing(DeltaText(c.delta));
    WithNothing(CallsArguments(c.delta.toolCalls, k));
  }

  lemma {:induction false} ChunkSays(choices: seq<Choice>, k: int)
    ensures Texts(ChunkActions(choices)) == ChunkText(choices)
    ensures Args(ChunkActions(choices), k) == ChunkArguments(choices, k)
    decreases |choices|
  {
    if choices != [] {
      var front, last := choices[..|choices| - 1], choices[|choices| - 1];
      ChunkSays(front, k);
      ChoiceSays(last, k);
      TextsAppend(ChunkActions(front), ChoiceActions(last));
      ArgsAppend(ChunkActions(front), ChoiceActions(last), k);
    }
  }

  lemma {:induction false} StreamSays(lines: seq<Line>, k: int)
    ensures Texts(LineActions(lines)) == StreamText(lines)
    ensures Args(LineActions(lines), k) == StreamArguments(lines, k)
    decreases |lines|
  {
    if lines != [] && !lines[0].Done? {
      StreamSays(lines[1..], k);
      var first := if lines[0].Data? then ChunkActions(lines[0].chunk.choices) else [];
      if lines[0].Data? {
        ChunkSays(lines[0].chunk.choices, k);
      }
      TextsAppend(first, LineActions(lines[1..]));
      ArgsAppend(first, LineActions(lines[1..]), k);
    }
  }

  /** MAIN RESULT for streams of chunks: what a client is sent is the text of the chunks up to
      `[DONE]`, in order, and each tool's block has the arguments of the chunks for that tool. */
  lemma TranslationConserved(id: string, lines: seq<Line>)
    ensures TextDeltas(Translation(id, lines)) == StreamText(lines)
    ensures var s := Run(NewEmitter(id), LineActions(lines)).Finish(LineReason(lines, "end_turn"));
      && s.out == Translation(id, lines)
      && (forall k :: if k in s.toolBlocks
           then JsonDeltas(s.out, s.toolBlocks[k].blockIndex) == StreamArguments(lines, k)
           else StreamArguments(lines, k) == "")
  {
    var h, reason := LineActions(lines), LineReason(lines, "end_turn");
    StreamSays(lines, 0);
    PayloadConserved(id, h, reason);
    var s := Run(NewEmitter(id), h).Finish(reason);
    forall k
      ensures if k in s.toolBlocks
        then JsonDeltas(s.out, s.toolBlocks[k].blockIndex) == StreamArguments(lines, k)
        else StreamArguments(lines, k) == ""
    {
      StreamSays(lines, k);
      if k !in Seen(h) {
        UnseenHasNoArguments(h, k);
      }
    }
  }

  /** With or without a read error: the client has all the text of the lines that were read. */
  lemma DeliveredText(id: string, lines: seq<Line>, readError: Option<string>)
    ensures TextDeltas(Delivered(id, lines, readError)) == StreamText(lines)
  {
    TranslationConserved(id, lines);
    StreamSays(lines, 0);
    PayloadRun(id, LineActions(lines));
  }

  lemma {:induction false} UnseenHasNoArguments(h: seq<Action>, k: int)
    requires k !in Seen(h)
    ensures Args(h, k) == ""
    decreases |h|
  {
    if h != [] {
      UnseenHasNoArguments(h[..|h| - 1], k);
    }
  }
}
