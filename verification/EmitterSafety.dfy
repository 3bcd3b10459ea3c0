/** Every trace the emitter can write, judged by a client of the stream. */
module EmitterSafety {
  import opened Text
  import opened AnthropicStream
  import opened OpenAIStream
  import opened Emitter

  // ---------------------------------------------------------------- what the input says

  /** Tool indices that occur in the input. */
  function Seen(h: seq<Action>): set<int> {
    if h == [] then {}
    else
      var a := h[|h| - 1];
      Seen(h[..|h| - 1]) + if a.CallAction? then {a.call.index} else {}
  }

  predicate Labels(c: ToolCallDelta) {
    c.id != "" || c.name != ""
  }

  /** Tool indices that carry an id or a name at least once. */
  function Named(h: seq<Action>): set<int> {
    if h == [] then {}
    else
      var a := h[|h| - 1];
      Named(h[..|h| - 1]) + if a.CallAction? && Labels(a.call) then {a.call.index} else {}
  }

  /** Text came after the last tool to be named for the first time. */
  predicate TextLast(h: seq<Action>) {
    h != [] &&
    var front, a := h[..|h| - 1], h[|h| - 1];
    match a
    case TextAction(t) => t != "" || TextLast(front)
    case CallAction(c) => TextLast(front) && !(Labels(c) && c.index !in Named(front))
  }

  /** All text of the input, in order of arrival. */
  function Texts(h: seq<Action>): string {
    if h == [] then ""
    else
      var a := h[|h| - 1];
      Texts(h[..|h| - 1]) + if a.TextAction? then a.text else ""
  }

  /** All argument fragments of tool `k`, in order of arrival. */
  function Args(h: seq<Action>, k: int): string {
    if h == [] then ""
    else
      var a := h[|h| - 1];
      Args(h[..|h| - 1], k) + if a.CallAction? && a.call.index == k then a.call.arguments else ""
  }

  // ---------------------------------------------------------------- the emitter and its client

  /** Block indices of the started tools. */
  function StartedBlocks(tools: map<int, ToolState>): set<int> {
    set k | k in tools && tools[k].started :: tools[k].blockIndex
  }

  ghost predicate DistinctBlocks(tools: map<int, ToolState>) {
    forall k, l :: k in tools && l in tools && tools[k].started && tools[l].started && k != l
      ==> tools[k].blockIndex != tools[l].blockIndex
  }

  ghost predicate ToolsBelow(tools: map<int, ToolState>, n: int) {
    forall k :: k in tools && tools[k].started ==> 0 <= tools[k].blockIndex < n
  }

  ghost predicate ToolsMatch(tools: map<int, ToolState>, blocks: seq<Block>) {
    forall k :: k in tools && tools[k].started && 0 <= tools[k].blockIndex < |blocks|
      ==> blocks[tools[k].blockIndex].ToolBlock?
  }

  ghost predicate OrderOk(s: Emitter) {
    && (forall k :: k in s.toolOrder <==> k in s.toolBlocks)
    && (forall i, j :: 0 <= i < j < |s.toolOrder| ==> s.toolOrder[i] != s.toolOrder[j])
  }

  /** The client holds exactly the blocks the emitter numbered; open are the text block, if
      any, which is then the newest block, and the started tools. */
  ghost predicate Sync(s: Emitter) {
    var r := Read(s.out);
    && r.phase.Streaming?
    && s.nextBlockIndex == |r.blocks|
    && (s.textStarted ==>
         s.textBlockIndex == |r.blocks| - 1 >= 0 && r.blocks[s.textBlockIndex].TextBlock?)
    && ToolsBelow(s.toolBlocks, |r.blocks|)
    && ToolsMatch(s.toolBlocks, r.blocks)
    && DistinctBlocks(s.toolBlocks)
    && r.open == (if s.textStarted then {s.textBlockIndex} else {}) + StartedBlocks(s.toolBlocks)
    && OrderOk(s)
  }

  lemma SyncStart(id: string)
    ensures Sync(NewEmitter(id))
  {
    ReadAppend([], MessageStart);
    assert [] + [MessageStart] == [MessageStart];
    assert NewEmitter(id).out == [MessageStart];
  }

  lemma SyncText(s: Emitter, text: string)
    requires Sync(s)
    ensures Sync(s.WriteText(text))
  {
    if text != "" {
      SyncOpenText(s);
      ReadAppend(s.OpenText().out, TextDelta(s.OpenText().textBlockIndex, text));
    }
  }

  lemma SyncOpenText(s: Emitter)
    requires Sync(s)
    ensures Sync(s.OpenText()) && s.OpenText().textStarted
  {
    if !s.textStarted {
      ReadAppend(s.out, TextBlockStart(s.nextBlockIndex));
    }
  }

  lemma StartedBlocksAfter(tools: map<int, ToolState>, k: int, b: ToolState)
    requires k in tools && !tools[k].started && b.started
    ensures StartedBlocks(tools[k := b]) == StartedBlocks(tools) + {b.blockIndex}
  {
    var after := tools[k := b];
    forall i | i in StartedBlocks(tools) + {b.blockIndex}
      ensures i in StartedBlocks(after)
    {
      if i == b.blockIndex {
        assert after[k].started;
      } else {
        var l :| l in tools && tools[l].started && tools[l].blockIndex == i;
        assert after[l] == tools[l];
      }
    }
  }

  lemma SyncCloseText(s: Emitter)
    requires Sync(s)
    ensures Sync(s.CloseText()) && !s.CloseText().textStarted
    ensures |Read(s.CloseText().out).blocks| == |Read(s.out).blocks|
  {
    if s.textStarted {
      ReadAppend(s.out, BlockStop(s.textBlockIndex));
      assert s.textBlockIndex !in StartedBlocks(s.toolBlocks);
    }
  }

  lemma SyncStartTool(s: Emitter, k: int)
    requires Sync(s) && k in s.toolBlocks
    ensures Sync(s.StartTool(k))
  {
    if !s.toolBlocks[k].started {
      var n := s.nextBlockIndex;
      var b := s.Started(k, n);
      var c := s.CloseText();
      SyncCloseText(s);
      var t := c.(nextBlockIndex := n + 1, toolBlocks := s.toolBlocks[k := b])
                .Write(ToolBlockStart(n, b.id, b.name));
      ReadAppend(c.out, ToolBlockStart(n, b.id, b.name));
      StartedBlocksAfter(s.toolBlocks, k, b);
      assert Sync(t);
      if s.toolBlocks[k].pendingJSON != "" {
        SyncInput(t, k, s.toolBlocks[k].pendingJSON);
      }
    }
  }

  lemma SyncInput(s: Emitter, k: int, json: string)
    requires Sync(s) && k in s.toolBlocks && s.toolBlocks[k].started
    ensures Sync(s.Write(InputJsonDelta(s.toolBlocks[k].blockIndex, json)))
  {
    var i := s.toolBlocks[k].blockIndex;
    assert i in StartedBlocks(s.toolBlocks);
    ReadAppend(s.out, InputJsonDelta(i, json));
  }

  /** Changing what is remembered of a tool, but not its block, changes nothing for a client. */
  lemma SyncRemember(s: Emitter, k: int, b: ToolState)
    requires Sync(s) && k in s.toolBlocks
    requires b.started == s.toolBlocks[k].started && b.blockIndex == s.toolBlocks[k].blockIndex
    ensures Sync(s.(toolBlocks := s.toolBlocks[k := b]))
  {
    var after := s.toolBlocks[k := b];
    forall i | i in StartedBlocks(s.toolBlocks)
      ensures i in StartedBlocks(after)
    {
      var l :| l in s.toolBlocks && s.toolBlocks[l].started && s.toolBlocks[l].blockIndex == i;
      assert after[l].started && after[l].blockIndex == i;
    }
    assert StartedBlocks(after) == StartedBlocks(s.toolBlocks);
    assert ToolsMatch(after, Read(s.out).blocks);
  }

  lemma SyncTouch(s: Emitter, k: int)
    requires Sync(s)
    ensures Sync(s.Touch(k))
  {
    if k !in s.toolBlocks {
      var after := s.toolBlocks[k := NEW_TOOL];
      forall i | i in StartedBlocks(s.toolBlocks)
        ensures i in StartedBlocks(after)
      {
        var l :| l in s.toolBlocks && s.toolBlocks[l].started && s.toolBlocks[l].blockIndex == i;
        assert after[l] == s.toolBlocks[l];
      }
      assert StartedBlocks(after) == StartedBlocks(s.toolBlocks);
      assert OrderOk(s.Touch(k));
    }
  }

  lemma SyncCall(s: Emitter, c: ToolCallDelta)
    requires Sync(s)
    ensures Sync(s.WriteCall(c))
  {
    var k := c.index;
    var s1 := s.Touch(k);
    SyncTouch(s, k);
    var s2 := s1.Label(k, c.id, c.name);
    SyncRemember(s1, k, s2.toolBlocks[k]);
    var s3 := s2.StartIfLabelled(k);
    SyncStartTool(s2, k);
    if c.arguments != "" {
      if s3.toolBlocks[k].started {
        SyncInput(s3, k, c.arguments);
      } else {
        SyncRemember(s3, k, s3.AddInput(k, c.arguments).toolBlocks[k]);
      }
    }
  }

  /** Until it finishes, the emitter never breaks a rule of the stream. */
  lemma {:induction false} SyncRun(id: string, h: seq<Action>)
    ensures Sync(Run(NewEmitter(id), h))
    decreases |h|
  {
    if h == [] {
      SyncStart(id);
    } else {
      var front, a := h[..|h| - 1], h[|h| - 1];
      SyncRun(id, front);
      match a
      case TextAction(t) => SyncText(Run(NewEmitter(id), front), t);
      case CallAction(c) => SyncCall(Run(NewEmitter(id), front), c);
    }
  }

  // ---------------------------------------------------------------- state and input

  /** The flags of the emitter, read off its input. */
  ghost predicate Tracks(s: Emitter, h: seq<Action>) {
    && s.toolBlocks.Keys == Seen(h)
    && (forall k :: k in s.toolBlocks ==> (s.toolBlocks[k].started <==> k in Named(h)))
    && (forall k :: k in s.toolBlocks && !s.toolBlocks[k].started ==>
         s.toolBlocks[k].id == "" && s.toolBlocks[k].name == "")
    && (s.textStarted <==> TextLast(h))
  }

  lemma NamedAreSeen(h: seq<Action>)
    ensures Named(h) <= Seen(h)
  {
    if h != [] {
      NamedAreSeen(h[..|h| - 1]);
    }
  }

  lemma {:induction false} TracksRun(id: string, h: seq<Action>)
    ensures Tracks(Run(NewEmitter(id), h), h)
    decreases |h|
  {
    if h != [] {
      var front, a := h[..|h| - 1], h[|h| - 1];
      TracksRun(id, front);
      if a.CallAction? {
        TracksCall(Run(NewEmitter(id), front), front, a.call);
        assert h == front + [a];
      }
    }
  }

  lemma TracksCall(s: Emitter, h: seq<Action>, c: ToolCallDelta)
    requires Tracks(s, h)
    ensures Tracks(s.WriteCall(c), h + [CallAction(c)])
  {
    var t, h', k := s.WriteCall(c), h + [CallAction(c)], c.index;
    CallHistory(h, c);
    NamedAreSeen(h);
    CallEffect(s, c);
    forall l | l in t.toolBlocks
      ensures t.toolBlocks[l].started <==> l in Named(h')
      ensures !t.toolBlocks[l].started ==> t.toolBlocks[l].id == "" && t.toolBlocks[l].name == ""
    {
      if l != k {
        assert t.toolBlocks[l] == s.toolBlocks[l];
      }
    }
  }

  lemma CallHistory(h: seq<Action>, c: ToolCallDelta)
    ensures var h' := h + [CallAction(c)];
      && Seen(h') == Seen(h) + {c.index}
      && Named(h') == Named(h) + (if Labels(c) then {c.index} else {})
      && (TextLast(h') <==> TextLast(h) && !(Labels(c) && c.index !in Named(h)))
  {
    WithoutLast(h, CallAction(c));
  }

  /** What a call does to the flags, when an unstarted tool has no label yet. */
  lemma CallEffect(s: Emitter, c: ToolCallDelta)
    requires c.index in s.toolBlocks && !s.toolBlocks[c.index].started ==>
      s.toolBlocks[c.index].id == "" && s.toolBlocks[c.index].name == ""
    ensures var t, k := s.WriteCall(c), c.index;
      var was := k in s.toolBlocks && s.toolBlocks[k].started;
      && t.toolBlocks.Keys == s.toolBlocks.Keys + {k}
      && (forall l :: l in s.toolBlocks && l != k ==> t.toolBlocks[l] == s.toolBlocks[l])
      && (t.toolBlocks[k].started <==> was || Labels(c))
      && (!t.toolBlocks[k].started ==> t.toolBlocks[k].id == "" && t.toolBlocks[k].name == "")
      && (t.textStarted <==> s.textStarted && (was || !Labels(c)))
  {
  }

  // ---------------------------------------------------------------- the end of the message

  /** The open blocks among the tools still to be stopped. */
  function StillOpen(tools: map<int, ToolState>, ks: seq<int>): set<int> {
    set k | k in ks && k in tools && tools[k].started :: tools[k].blockIndex
  }

  predicate AllStarted(tools: map<int, ToolState>, ks: seq<int>) {
    forall k :: k in ks && k in tools ==> tools[k].started
  }

  /** `Sync` while the tools in `ks` remain to be stopped. */
  ghost predicate Stopping(s: Emitter, ks: seq<int>) {
    var r := Read(s.out);
    && r.phase.Streaming?
    && s.nextBlockIndex == |r.blocks|
    && ToolsBelow(s.toolBlocks, |r.blocks|)
    && ToolsMatch(s.toolBlocks, r.blocks)
    && DistinctBlocks(s.toolBlocks)
    && (forall k :: k in ks ==> k in s.toolBlocks)
    && (forall i, j :: 0 <= i < j < |ks| ==> ks[i] != ks[j])
    && r.open == StillOpen(s.toolBlocks, ks)
    && (s.textStarted ==> AllStarted(s.toolBlocks, ks))
  }

  lemma StillOpenAfter(tools: map<int, ToolState>, ks: seq<int>, k: int, b: ToolState)
    requires k in ks && k in tools && !tools[k].started && b.started
    ensures StillOpen(tools[k := b], ks) == StillOpen(tools, ks) + {b.blockIndex}
  {
    var after := tools[k := b];
    forall i | i in StillOpen(tools, ks) + {b.blockIndex}
      ensures i in StillOpen(after, ks)
    {
      if i == b.blockIndex {
        assert after[k].started;
      } else {
        var l :| l in ks && l in tools && tools[l].started && tools[l].blockIndex == i;
        assert after[l] == tools[l];
      }
    }
  }

  lemma StoppingStartBlock(s: Emitter, ks: seq<int>, k: int)
    requires Stopping(s, ks) && k in ks && !s.toolBlocks[k].started
    ensures var b := s.Started(k, s.nextBlockIndex);
      Stopping(s.(nextBlockIndex := s.nextBlockIndex + 1, toolBlocks := s.toolBlocks[k := b])
                .Write(ToolBlockStart(s.nextBlockIndex, b.id, b.name)), ks)
  {
    var b := s.Started(k, s.nextBlockIndex);
    ReadAppend(s.out, ToolBlockStart(s.nextBlockIndex, b.id, b.name));
    StillOpenAfter(s.toolBlocks, ks, k, b);
  }

  lemma StoppingInput(s: Emitter, ks: seq<int>, k: int, json: string)
    requires Stopping(s, ks) && k in ks && s.toolBlocks[k].started
    ensures Stopping(s.Write(InputJsonDelta(s.toolBlocks[k].blockIndex, json)), ks)
  {
    assert s.toolBlocks[k].blockIndex in StillOpen(s.toolBlocks, ks);
    ReadAppend(s.out, InputJsonDelta(s.toolBlocks[k].blockIndex, json));
  }

  lemma StoppingStart(s: Emitter, ks: seq<int>, k: int)
    requires Stopping(s, ks) && k in ks && !s.toolBlocks[k].started
    ensures Stopping(s.StartTool(k), ks) && s.StartTool(k).toolBlocks[k].started
  {
    var n := s.nextBlockIndex;
    var b := s.Started(k, n);
    assert !s.textStarted;
    var t := s.(nextBlockIndex := n + 1, toolBlocks := s.toolBlocks[k := b])
              .Write(ToolBlockStart(n, b.id, b.name));
    StoppingStartBlock(s, ks, k);
    if s.toolBlocks[k].pendingJSON != "" {
      StoppingInput(t, ks, k, s.toolBlocks[k].pendingJSON);
    }
  }

  lemma StoppingStop(s: Emitter, ks: seq<int>)
    requires Stopping(s, ks) && ks != [] && ks[0] in s.toolBlocks && s.toolBlocks[ks[0]].started
    ensures Stopping(s.Write(BlockStop(s.toolBlocks[ks[0]].blockIndex)), ks[1..])
  {
    var i := s.toolBlocks[ks[0]].blockIndex;
    assert ks[0] in ks;
    assert i in StillOpen(s.toolBlocks, ks);
    ReadAppend(s.out, BlockStop(i));
    forall j | j in StillOpen(s.toolBlocks, ks) - {i}
      ensures j in StillOpen(s.toolBlocks, ks[1..])
    {
      var l :| l in ks && l in s.toolBlocks && s.toolBlocks[l].started
               && s.toolBlocks[l].blockIndex == j;
      assert l in ks[1..];
    }
    forall l | l in ks[1..] ensures l != ks[0] && l in ks {
    }
    assert StillOpen(s.toolBlocks, ks[1..]) == StillOpen(s.toolBlocks, ks) - {i};
  }

  lemma {:induction false} StopToolsCloses(s: Emitter, ks: seq<int>)
    requires Stopping(s, ks)
    ensures Read(s.StopTools(ks).out).phase.Streaming? && Read(s.StopTools(ks).out).open == {}
    decreases |ks|
  {
    if ks != [] {
      assert ks[0] in ks;
      if !s.toolBlocks[ks[0]].started {
        StoppingStart(s, ks, ks[0]);
      }
      var t := s.StartTool(ks[0]);
      StoppingStop(t, ks);
      StopToolsCloses(t.Write(BlockStop(t.toolBlocks[ks[0]].blockIndex)), ks[1..]);
    }
  }

  /** With every tool started, the end adds no block and no content. */
  lemma {:induction false} StopToolsKeepsBlocks(s: Emitter, ks: seq<int>)
    requires Stopping(s, ks) && AllStarted(s.toolBlocks, ks)
    ensures Read(s.StopTools(ks).out).blocks == Read(s.out).blocks
    decreases |ks|
  {
    if ks != [] {
      assert ks[0] in ks;
      var t := s.Write(BlockStop(s.toolBlocks[ks[0]].blockIndex));
      StoppingStop(s, ks);
      ReadAppend(s.out, BlockStop(s.toolBlocks[ks[0]].blockIndex));
      StopToolsKeepsBlocks(t, ks[1..]);
    }
  }

  lemma {:induction false} StopToolsOnlyWrites(s: Emitter, ks: seq<int>)
    ensures s.out <= s.StopTools(ks).out
    decreases |ks|
  {
    if ks != [] {
      if ks[0] !in s.toolBlocks {
        StopToolsOnlyWrites(s, ks[1..]);
      } else {
        var t := s.StartTool(ks[0]);
        StopToolsOnlyWrites(t.Write(BlockStop(t.toolBlocks[ks[0]].blockIndex)), ks[1..]);
      }
    }
  }

  lemma BrokenPrefix(trace: seq<Event>, longer: seq<Event>)
    requires Read(trace).phase.Broken? && trace <= longer
    ensures Read(longer).phase.Broken?
  {
    BrokenForever(trace, longer[|trace|..]);
    assert trace + longer[|trace|..] == longer;
  }

  lemma SecondTextStopBreaks(s: Emitter, k: int)
    requires s.textStarted && s.textBlockIndex !in Read(s.out).open
    requires k in s.toolBlocks && !s.toolBlocks[k].started
    ensures Read(s.StartTool(k).out).phase.Broken?
  {
    var c := s.CloseText();
    assert Read(c.out).phase.Broken? by {
      ReadAppend(s.out, BlockStop(s.textBlockIndex));
    }
    StartToolWritesAfterText(s, k);
    BrokenPrefix(c.out, s.StartTool(k).out);
  }

  lemma StartToolWritesAfterText(s: Emitter, k: int)
    requires k in s.toolBlocks && !s.toolBlocks[k].started
    ensures s.CloseText().out <= s.StartTool(k).out
  {
  }

  /** A tool that must be started after the text block was stopped stops it a second time. */
  lemma {:induction false} StopToolsBreaks(s: Emitter, ks: seq<int>)
    requires s.textStarted && s.textBlockIndex !in Read(s.out).open
    requires forall k :: k in ks ==> k in s.toolBlocks
    requires !AllStarted(s.toolBlocks, ks)
    ensures Read(s.StopTools(ks).out).phase.Broken?
    decreases |ks|
  {
    var k := ks[0];
    assert k in ks;
    var t := s.StartTool(k);
    var u := t.Write(BlockStop(t.toolBlocks[k].blockIndex));
    if s.toolBlocks[k].started {
      ReadAppend(s.out, BlockStop(s.toolBlocks[k].blockIndex));
      StopToolsBreaks(u, ks[1..]);
    } else {
      SecondTextStopBreaks(s, k);
      StopToolsOnlyWrites(u, ks[1..]);
      BrokenPrefix(t.out, s.StopTools(ks).out);
    }
  }

  /** The text block's own stop, written by `Finish` before the tools are stopped. */
  function TextStopped(s: Emitter): Emitter {
    if s.textStarted then s.Write(BlockStop(s.textBlockIndex)) else s
  }

  lemma TextStoppedSync(s: Emitter)
    requires Sync(s)
    ensures var t := TextStopped(s);
      && Read(t.out).phase.Streaming?
      && |Read(t.out).blocks| == s.nextBlockIndex
      && Read(t.out).blocks == Read(s.out).blocks
      && Read(t.out).open == StartedBlocks(s.toolBlocks)
      && (s.textStarted ==> s.textBlockIndex !in Read(t.out).open)
  {
    if s.textStarted {
      ReadAppend(s.out, BlockStop(s.textBlockIndex));
      assert s.textBlockIndex !in StartedBlocks(s.toolBlocks);
    }
  }

  lemma FinishTail(s: Emitter, reason: string)
    ensures var r := Read(TextStopped(s).StopTools(s.toolOrder).out);
      var end := Read(s.Finish(reason).out);
      && (r.phase.Streaming? && r.open == {} ==>
           end == r.(phase := Stopped(if reason == "" then "end_turn" else reason)))
      && (r.phase.Broken? ==> end.phase.Broken?)
  {
    var t := TextStopped(s).StopTools(s.toolOrder);
    var e := MessageDelta(if reason == "" then "end_turn" else reason);
    ReadAppend(t.out, e);
    ReadAppend(t.out + [e], MessageStop);
  }

  lemma FinishDecides(s: Emitter, reason: string)
    requires Sync(s)
    ensures WellFormed(s.Finish(reason).out)
        <==> !(s.textStarted && !AllStarted(s.toolBlocks, s.toolOrder))
    ensures WellFormed(s.Finish(reason).out) ==>
      Read(s.Finish(reason).out).phase.reason == if reason == "" then "end_turn" else reason
  {
    FinishTail(s, reason);
    if s.textStarted && !AllStarted(s.toolBlocks, s.toolOrder) {
      FinishBreaks(s);
    } else {
      FinishCloses(s);
    }
  }

  lemma FinishBreaks(s: Emitter)
    requires Sync(s) && s.textStarted && !AllStarted(s.toolBlocks, s.toolOrder)
    ensures Read(TextStopped(s).StopTools(s.toolOrder).out).phase.Broken?
  {
    TextStoppedSync(s);
    StopToolsBreaks(TextStopped(s), s.toolOrder);
  }

  lemma FinishCloses(s: Emitter)
    requires Sync(s) && (s.textStarted ==> AllStarted(s.toolBlocks, s.toolOrder))
    ensures var r := Read(TextStopped(s).StopTools(s.toolOrder).out); r.phase.Streaming? && r.open == {}
  {
    TextStoppedSync(s);
    assert StillOpen(s.toolBlocks, s.toolOrder) == StartedBlocks(s.toolBlocks);
    StopToolsCloses(TextStopped(s), s.toolOrder);
  }

  lemma FinishKeepsBlocks(s: Emitter, reason: string)
    requires Sync(s) && AllStarted(s.toolBlocks, s.toolOrder)
    ensures Read(s.Finish(reason).out)
         == Reader(Stopped(if reason == "" then "end_turn" else reason), Read(s.out).blocks, {})
  {
    var t := TextStopped(s);
    TextStoppedSync(s);
    FinishTail(s, reason);
    assert StillOpen(s.toolBlocks, s.toolOrder) == StartedBlocks(s.toolBlocks);
    StopToolsCloses(t, s.toolOrder);
    StopToolsKeepsBlocks(t, s.toolOrder);
  }

  /** MAIN RESULT. For every input, what the emitter writes is a complete, correct message
      exactly when no tool was left unnamed while text came last; the reason is kept. */
  lemma WellFormedExactly(id: string, h: seq<Action>, reason: string)
    ensures var trace := Run(NewEmitter(id), h).Finish(reason).out;
      && (WellFormed(trace) <==> !(TextLast(h) && Seen(h) != Named(h)))
      && (WellFormed(trace) ==>
           Read(trace).phase == Stopped(if reason == "" then "end_turn" else reason))
  {
    var s := Run(NewEmitter(id), h);
    SyncRun(id, h);
    TracksRun(id, h);
    NamedAreSeen(h);
    FinishDecides(s, reason);
    if AllStarted(s.toolBlocks, s.toolOrder) {
      forall k | k in Seen(h) ensures k in Named(h) {
        assert k in s.toolOrder;
      }
      assert Seen(h) == Named(h);
    }
  }

  /** How often a trace stops block `i`. */
  function Stops(trace: seq<Event>, i: int): nat {
    multiset(trace)[BlockStop(i)]
  }

  lemma StopsGrow(trace: seq<Event>, longer: seq<Event>, i: int)
    requires trace <= longer
    ensures Stops(trace, i) <= Stops(longer, i)
  {
    AfterPrefix(trace, longer);
  }

  /** With text open, the first unstarted tool to be stopped stops the text block. */
  lemma {:induction false} StopToolsStopsText(s: Emitter, ks: seq<int>)
    requires s.textStarted && !AllStarted(s.toolBlocks, ks) && forall k :: k in ks ==> k in s.toolBlocks
    ensures Stops(s.StopTools(ks).out, s.textBlockIndex) > Stops(s.out, s.textBlockIndex)
    decreases |ks|
  {
    var k, i := ks[0], s.textBlockIndex;
    assert k in ks;
    var t := s.StartTool(k);
    var u := t.Write(BlockStop(t.toolBlocks[k].blockIndex));
    assert t.out <= u.out;
    if s.toolBlocks[k].started {
      StopToolsStopsText(u, ks[1..]);
      StopsGrow(s.out, u.out, i);
    } else {
      StartToolWritesAfterText(s, k);
      StopToolsOnlyWrites(u, ks[1..]);
      StopsGrow(s.CloseText().out, s.StopTools(ks).out, i);
    }
  }

  /** Where the criterion fails, the text block that was open at the end is stopped twice. */
  lemma TextStoppedTwice(id: string, h: seq<Action>, reason: string)
    requires TextLast(h) && Seen(h) != Named(h)
    ensures var s := Run(NewEmitter(id), h);
      s.textStarted && Stops(s.Finish(reason).out, s.textBlockIndex) >= 2
  {
    var s := Run(NewEmitter(id), h);
    SyncRun(id, h);
    TracksRun(id, h);
    NamedAreSeen(h);
    if AllStarted(s.toolBlocks, s.toolOrder) {
      forall k | k in Seen(h) ensures k in Named(h) {
        assert k in s.toolOrder;
      }
      assert false;
    }
    var t := TextStopped(s);
    StopToolsStopsText(t, s.toolOrder);
    StopsGrow(t.StopTools(s.toolOrder).out, s.Finish(reason).out, s.textBlockIndex);
  }

  /** Such an input exists: arguments without id or name, then text, then the end. */
  lemma UnnamedToolBreaks()
    ensures var h := [CallAction(ToolCallDelta(0, "", "", "{}")), TextAction("x")];
      var trace := Run(NewEmitter("m"), h).Finish("end_turn").out;
      !WellFormed(trace) && exists i :: Stops(trace, i) >= 2
  {
    var h := [CallAction(ToolCallDelta(0, "", "", "{}")), TextAction("x")];
    var h1 := h[..1];
    assert h1[..0] == [] && h[..|h| - 1] == h1 && h1[..|h1| - 1] == [];
    assert 0 in Seen(h1) && 0 in Seen(h);
    assert Named(h1) == Named([]) + {} && Named(h) == Named(h1) + {};
    WellFormedExactly("m", h, "end_turn");
    TextStoppedTwice("m", h, "end_turn");
  }

  /** MAIN RESULT for streams of chunks, as the proxy runs them. */
  lemma TranslationWellFormed(id: string, lines: seq<Line>)
    ensures WellFormed(Translation(id, lines))
        <==> !(TextLast(LineActions(lines)) && Seen(LineActions(lines)) != Named(LineActions(lines)))
  {
    WellFormedExactly(id, LineActions(lines), LineReason(lines, "end_turn"));
  }

  /** A read error before `[DONE]` leaves the client with a message that breaks no rule and never
      ends. */
  lemma FailureIsSeen(id: string, lines: seq<Line>, error: string)
    requires !HasDone(lines)
    ensures Read(Delivered(id, lines, Some(error))).phase.Streaming?
  {
    SyncRun(id, LineActions(lines));
  }

  /** With or without a read error: the client holds a whole message exactly if the lines came to their
      `[DONE]`, or to their end without an error, and the criterion is met. */
  lemma DeliveredWellFormed(id: string, lines: seq<Line>, readError: Option<string>)
    ensures WellFormed(Delivered(id, lines, readError)) <==>
      && (HasDone(lines) || readError.None?)
      && !(TextLast(LineActions(lines)) && Seen(LineActions(lines)) != Named(LineActions(lines)))
  {
    TranslationWellFormed(id, lines);
    if readError.Some? && !HasDone(lines) {
      FailureIsSeen(id, lines, readError.value);
    }
  }

  // ---------------------------------------------------------------- the stop reason

  /** The finish reasons the choices of a chunk, and the chunks up to `[DONE]`, carry. */
  function Reasons(choices: seq<Choice>): seq<string> {
    seq(|choices|, i requires 0 <= i < |choices| => choices[i].finishReason)
  }

  function StreamReasons(lines: seq<Line>): seq<string> {
    if lines == [] || lines[0].Done? then []
    else (if lines[0].Data? then Reasons(lines[0].chunk.choices) else []) + StreamReasons(lines[1..])
  }

  /** What a finish reason means to an Anthropic client. */
  function Meaning(finishReason: string): string {
    if finishReason == "length" then "max_tokens"
    else if finishReason == "tool_calls" then "tool_use"
    else if finishReason == "content_filter" then "refusal"
    else "end_turn"
  }

  /** The last reason that is not empty, or what came before. */
  function LastMeaning(reasons: seq<string>, before: string): string {
    if NonEmpty(reasons) == [] then before else Meaning(NonEmpty(reasons)[|NonEmpty(reasons)| - 1])
  }

  lemma {:induction false} NonEmptyJoin(a: seq<string>, b: seq<string>)
    ensures NonEmpty(a + b) == NonEmpty(a) + NonEmpty(b)
    decreases |a|
  {
    if a == [] {
      WithNothing(b);
      WithNothing(NonEmpty(b));
    } else {
      FirstOfJoin(a, b);
      NonEmptyJoin(a[1..], b);
      Associative(if a[0] == "" then [] else [a[0]], NonEmpty(a[1..]), NonEmpty(b));
    }
  }

  lemma LastMeaningJoin(a: seq<string>, b: seq<string>, before: string)
    ensures LastMeaning(a + b, before) == LastMeaning(b, LastMeaning(a, before))
  {
    NonEmptyJoin(a, b);
    if NonEmpty(b) == [] {
      WithNothing(NonEmpty(a));
    } else {
      LastOfJoin(NonEmpty(a), NonEmpty(b));
    }
  }

  lemma {:induction false} ChunkMeans(choices: seq<Choice>, before: string)
    ensures ChunkReason(choices, before) == LastMeaning(Reasons(choices), before)
    decreases |choices|
  {
    if choices != [] {
      var front, last := choices[..|choices| - 1], choices[|choices| - 1].finishReason;
      ChunkMeans(front, before);
      assert Reasons(choices) == Reasons(front) + [last];
      LastMeaningJoin(Reasons(front), [last], before);
      OneReason(last, ChunkReason(front, before));
    }
  }

  lemma OneReason(reason: string, before: string)
    ensures LastMeaning([reason], before) == if reason == "" then before else Meaning(reason)
    ensures StopReason(reason) == Meaning(reason)
  {
    assert [reason][1..] == [];
    assert NonEmpty([reason]) == if reason == "" then [] else [reason];
  }

  lemma {:induction false} LinesMean(lines: seq<Line>, before: string)
    ensures LineReason(lines, before) == LastMeaning(StreamReasons(lines), before)
    decreases |lines|
  {
    if lines != [] && !lines[0].Done? {
      var first := if lines[0].Data? then Reasons(lines[0].chunk.choices) else [];
      var next := if lines[0].Data? then ChunkReason(lines[0].chunk.choices, before) else before;
      LinesMean(lines[1..], next);
      LastMeaningJoin(first, StreamReasons(lines[1..]), before);
      if lines[0].Data? {
        ChunkMeans(lines[0].chunk.choices, before);
      }
    }
  }

  /** A message that is whole stops for what the last finish reason of the stream means, and with `end_turn` if
      there is none. */
  lemma StopReasonDelivered(id: string, lines: seq<Line>)
    requires WellFormed(Translation(id, lines))
    ensures Read(Translation(id, lines)).phase == Stopped(LastMeaning(StreamReasons(lines), "end_turn"))
  {
    LinesMean(lines, "end_turn");
    WellFormedExactly(id, LineActions(lines), LineReason(lines, "end_turn"));
  }
}
