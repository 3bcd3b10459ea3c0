/** Under which id and name a tool reaches the client: those of the first fragment that has one. */
module EmitterLabels {
  import opened Text
  import opened AnthropicStream
  import opened OpenAIStream
  import opened Emitter
  import opened EmitterSafety
  import P = EmitterPayload

  /** How block `i` is announced as a tool, each time it is. */
  function Announced(trace: seq<Event>, i: int): seq<(string, string)> {
    if trace == [] then []
    else
      var last := trace[|trace| - 1];
      Announced(trace[..|trace| - 1], i)
      + if last.ToolBlockStart? && last.index == i then [(last.id, last.name)] else []
  }

  lemma AnnouncedSnoc(trace: seq<Event>, e: Event, i: int)
    ensures Announced(trace + [e], i)
      == Announced(trace, i) + if e.ToolBlockStart? && e.index == i then [(e.id, e.name)] else []
  {
    WithoutLast(trace, e);
  }

  // ---------------------------------------------------------------- what the input says

  /** The first fragment of tool `k` that carries an id or a name. */
  function FirstLabelled(h: seq<Action>, k: int): Option<ToolCallDelta> {
    if h == [] then None
    else
      var a := h[|h| - 1];
      match FirstLabelled(h[..|h| - 1], k)
      case Some(c) => Some(c)
      case None => if a.CallAction? && a.call.index == k && Labels(a.call) then Some(a.call) else None
  }

  /** The first id and the first name the input has for tool `k`, each "" if there is none. */
  function FirstId(h: seq<Action>, k: int): string {
    if h == [] then ""
    else
      var a, before := h[|h| - 1], FirstId(h[..|h| - 1], k);
      if before == "" && a.CallAction? && a.call.index == k then a.call.id else before
  }

  function FirstName(h: seq<Action>, k: int): string {
    if h == [] then ""
    else
      var a, before := h[|h| - 1], FirstName(h[..|h| - 1], k);
      if before == "" && a.CallAction? && a.call.index == k then a.call.name else before
  }

  function MadeUp(message: string, k: int): (string, string) {
    (SyntheticId(message, k), "tool")
  }

  /** The id and name of a fragment, with made-up ones where it lacks them. */
  function Label(message: string, k: int, c: Option<ToolCallDelta>): (string, string) {
    var (id, name) := MadeUp(message, k);
    if c.None? then (id, name)
    else (if c.value.id == "" then id else c.value.id, if c.value.name == "" then name else c.value.name)
  }

  // ---------------------------------------------------------------- what the emitter does

  /** Each started tool's block is announced once, as `want` says; no other block is. An
      unstarted tool remembers what it is to be announced as. */
  ghost predicate Announces(s: Emitter, want: int -> (string, string)) {
    && ToolsBelow(s.toolBlocks, s.nextBlockIndex) && s.nextBlockIndex >= 0
    && DistinctBlocks(s.toolBlocks)
    && (forall i :: i !in StartedBlocks(s.toolBlocks) ==> Announced(s.out, i) == [])
    && (forall k :: k in s.toolBlocks && s.toolBlocks[k].started ==>
         Announced(s.out, s.toolBlocks[k].blockIndex) == [want(k)])
    && (forall k :: k in s.toolBlocks && !s.toolBlocks[k].started ==>
         (s.Started(k, 0).id, s.Started(k, 0).name) == want(k))
  }

  lemma QuietAnnounces(s: Emitter, e: Event, want: int -> (string, string))
    requires Announces(s, want) && !e.ToolBlockStart?
    ensures Announces(s.Write(e), want)
  {
    forall i ensures Announced(s.out + [e], i) == Announced(s.out, i) {
      AnnouncedSnoc(s.out, e, i);
      WithNothing(Announced(s.out, i));
    }
    forall k | k in s.toolBlocks ensures s.Write(e).Started(k, 0) == s.Started(k, 0) {
    }
  }

  lemma AnnouncedNext(trace: seq<Event>, e: Event)
    requires e.ToolBlockStart? && Announced(trace, e.index) == []
    ensures Announced(trace + [e], e.index) == [(e.id, e.name)]
    ensures forall i :: i != e.index ==> Announced(trace + [e], i) == Announced(trace, i)
  {
    AnnouncedSnoc(trace, e, e.index);
    WithNothing([(e.id, e.name)]);
    forall i | i != e.index ensures Announced(trace + [e], i) == Announced(trace, i) {
      AnnouncedSnoc(trace, e, i);
      WithNothing(Announced(trace, i));
    }
  }

  /** A tool that starts takes the next block. */
  lemma StartAnnounces(s: Emitter, k: int, want: int -> (string, string))
    requires Announces(s, want) && k in s.toolBlocks && !s.toolBlocks[k].started
    ensures var b := s.Started(k, s.nextBlockIndex);
      Announces(s.(nextBlockIndex := s.nextBlockIndex + 1, toolBlocks := s.toolBlocks[k := b])
                 .Write(ToolBlockStart(s.nextBlockIndex, b.id, b.name)), want)
  {
    var n := s.nextBlockIndex;
    var b := s.Started(k, n);
    var e := ToolBlockStart(n, b.id, b.name);
    var t := s.(nextBlockIndex := n + 1, toolBlocks := s.toolBlocks[k := b]).Write(e);
    StartedBlocksAfter(s.toolBlocks, k, b);
    assert n !in StartedBlocks(s.toolBlocks);
    AnnouncedNext(s.out, e);
    assert Announced(s.out, n) == [];
    forall j | j in t.toolBlocks && !t.toolBlocks[j].started
      ensures (t.Started(j, 0).id, t.Started(j, 0).name) == want(j)
    {
      assert s.Started(j, 0) == t.Started(j, 0);
    }
  }

  lemma StartToolAnnounces(s: Emitter, k: int, want: int -> (string, string))
    requires Announces(s, want) && k in s.toolBlocks
    ensures Announces(s.StartTool(k), want)
  {
    if !s.toolBlocks[k].started {
      CloseTextAnnounces(s, want);
      StartClosedAnnounces(s.CloseText(), k, want);
      assert s.StartTool(k) == s.CloseText().StartTool(k);
    }
  }

  lemma StartClosedAnnounces(s: Emitter, k: int, want: int -> (string, string))
    requires Announces(s, want) && k in s.toolBlocks && !s.textStarted
    ensures Announces(s.StartTool(k), want)
  {
    if !s.toolBlocks[k].started {
      var n, held := s.nextBlockIndex, s.toolBlocks[k].pendingJSON;
      StartAnnounces(s, k, want);
      var b := s.Started(k, n);
      var t := s.(nextBlockIndex := n + 1, toolBlocks := s.toolBlocks[k := b]).Write(ToolBlockStart(n, b.id, b.name));
      StartIs(s, k, t);
      if held != "" {
        QuietAnnounces(t, InputJsonDelta(n, held), want);
      }
    }
  }

  lemma StartIs(s: Emitter, k: int, t: Emitter)
    requires k in s.toolBlocks && !s.textStarted && !s.toolBlocks[k].started
    requires var n := s.nextBlockIndex;
      var b := s.Started(k, n);
      t == s.(nextBlockIndex := n + 1, toolBlocks := s.toolBlocks[k := b]).Write(ToolBlockStart(n, b.id, b.name))
    ensures var held := s.toolBlocks[k].pendingJSON;
      s.StartTool(k) == if held == "" then t else t.Write(InputJsonDelta(s.nextBlockIndex, held))
  {
  }

  lemma CloseTextAnnounces(s: Emitter, want: int -> (string, string))
    requires Announces(s, want)
    ensures Announces(s.CloseText(), want)
  {
    if s.textStarted {
      var t := s.Write(BlockStop(s.textBlockIndex));
      QuietAnnounces(s, BlockStop(s.textBlockIndex), want);
      forall k | k in s.toolBlocks ensures s.CloseText().Started(k, 0) == t.Started(k, 0) {
      }
    }
  }

  lemma TextAnnounces(s: Emitter, text: string, want: int -> (string, string))
    requires Announces(s, want)
    ensures Announces(s.WriteText(text), want)
  {
    if text != "" {
      var t := s.OpenText();
      if !s.textStarted {
        QuietAnnounces(s, TextBlockStart(s.nextBlockIndex), want);
        assert Announces(t, want) by {
          forall k | k in s.toolBlocks
            ensures t.Started(k, 0) == s.Write(TextBlockStart(s.nextBlockIndex)).Started(k, 0)
          {
          }
        }
      }
      QuietAnnounces(t, TextDelta(t.textBlockIndex, text), want);
    }
  }

  /** Remembering input or labels of tool `k` leaves its block alone. */
  lemma SameStarted(a: map<int, ToolState>, b: map<int, ToolState>, k: int)
    requires k in b && b == a[k := b[k]]
    requires if k in a && a[k].started then b[k].started && b[k].blockIndex == a[k].blockIndex else !b[k].started
    ensures StartedBlocks(a) == StartedBlocks(b)
  {
    forall i ensures i in StartedBlocks(a) <==> i in StartedBlocks(b) {
      if i in StartedBlocks(a) {
        var j :| j in a && a[j].started && a[j].blockIndex == i;
        assert b[j].started && b[j].blockIndex == i;
      }
    }
  }

  lemma RememberAnnounces(s: Emitter, t: Emitter, k: int, was: int -> (string, string), want: int -> (string, string))
    requires Announces(s, was) && k in t.toolBlocks
    requires t == s.(toolBlocks := t.toolBlocks, toolOrder := t.toolOrder)
    requires t.toolBlocks == s.toolBlocks[k := t.toolBlocks[k]]
    requires if k in s.toolBlocks && s.toolBlocks[k].started
      then t.toolBlocks[k].started && t.toolBlocks[k].blockIndex == s.toolBlocks[k].blockIndex
      else !t.toolBlocks[k].started
    requires forall j :: j != k || (k in s.toolBlocks && s.toolBlocks[k].started) ==> want(j) == was(j)
    requires !t.toolBlocks[k].started ==> (t.Started(k, 0).id, t.Started(k, 0).name) == want(k)
    ensures Announces(t, want)
  {
    SameStarted(s.toolBlocks, t.toolBlocks, k);
    forall j | j in t.toolBlocks && !t.toolBlocks[j].started
      ensures (t.Started(j, 0).id, t.Started(j, 0).name) == want(j)
    {
      if j != k {
        assert t.Started(j, 0) == s.Started(j, 0);
      }
    }
  }

  /** What tool `j` is to be announced as after the input `h`. */
  function Wanted(message: string, h: seq<Action>): int -> (string, string) {
    j => Label(message, j, FirstLabelled(h, j))
  }

  lemma {:induction false} LabelledAreNamed(h: seq<Action>, k: int)
    ensures FirstLabelled(h, k).Some? <==> k in Named(h)
    decreases |h|
  {
    if h != [] {
      LabelledAreNamed(h[..|h| - 1], k);
    }
  }

  /** Remembering a call's label changes that tool only, and not whether and where it started. */
  lemma LabelsOnly(s: Emitter, k: int, id: string, name: string)
    ensures var t := s.Touch(k).Label(k, id, name);
      && t == s.(toolBlocks := t.toolBlocks, toolOrder := t.toolOrder)
      && t.toolBlocks == s.toolBlocks[k := t.toolBlocks[k]]
      && if k in s.toolBlocks then
           && t.toolBlocks[k].started == s.toolBlocks[k].started
           && t.toolBlocks[k].blockIndex == s.toolBlocks[k].blockIndex
         else !t.toolBlocks[k].started
  {
  }

  lemma LabelAnnounces(s: Emitter, h: seq<Action>, c: ToolCallDelta)
    requires Announces(s, Wanted(s.id, h)) && Tracks(s, h)
    ensures Announces(s.Touch(c.index).Label(c.index, c.id, c.name), Wanted(s.id, h + [CallAction(c)]))
  {
    var k := c.index;
    var h' := h + [CallAction(c)];
    var was, want := Wanted(s.id, h), Wanted(s.id, h');
    WithoutLast(h, CallAction(c));
    LabelledAreNamed(h, k);
    NamedAreSeen(h);
    var t := s.Touch(k).Label(k, c.id, c.name);
    LabelsOnly(s, k, c.id, c.name);
    RememberAnnounces(s, t, k, was, want);
  }

  lemma CallAnnounces(s: Emitter, h: seq<Action>, c: ToolCallDelta)
    requires Announces(s, Wanted(s.id, h)) && Tracks(s, h)
    ensures Announces(s.WriteCall(c), Wanted(s.id, h + [CallAction(c)]))
  {
    var k, want := c.index, Wanted(s.id, h + [CallAction(c)]);
    LabelAnnounces(s, h, c);
    var t := s.Touch(k).Label(k, c.id, c.name);
    StartToolAnnounces(t, k, want);
    InputAnnounces(t.StartIfLabelled(k), k, c.arguments, want);
  }

  lemma InputAnnounces(s: Emitter, k: int, args: string, want: int -> (string, string))
    requires Announces(s, want) && k in s.toolBlocks
    ensures Announces(s.AddInput(k, args), want)
  {
    if args != "" {
      if s.toolBlocks[k].started {
        QuietAnnounces(s, InputJsonDelta(s.toolBlocks[k].blockIndex, args), want);
      } else {
        assert s.AddInput(k, args).Started(k, 0) == s.Started(k, 0);
        RememberAnnounces(s, s.AddInput(k, args), k, want, want);
      }
    }
  }

  lemma {:induction false} RunKeepsId(id: string, h: seq<Action>)
    ensures Run(NewEmitter(id), h).id == id
    decreases |h|
  {
    if h != [] {
      RunKeepsId(id, h[..|h| - 1]);
      match h[|h| - 1]
      case TextAction(_) =>
      case CallAction(c) => CallKeepsId(Run(NewEmitter(id), h[..|h| - 1]), c);
    }
  }

  lemma CallKeepsId(s: Emitter, c: ToolCallDelta)
    ensures s.WriteCall(c).id == s.id
  {
    var t := s.Touch(c.index).Label(c.index, c.id, c.name);
    assert t.id == s.id;
    assert t.StartIfLabelled(c.index).id == s.id;
  }

  lemma {:induction false} RunAnnounces(id: string, h: seq<Action>)
    ensures Announces(Run(NewEmitter(id), h), Wanted(id, h))
    decreases |h|
  {
    if h == [] {
      forall i ensures Announced([MessageStart], i) == [] {
        AnnouncedSnoc([], MessageStart, i);
      }
      assert NewEmitter(id).out == [MessageStart];
    } else {
      var front, a := h[..|h| - 1], h[|h| - 1];
      RunAnnounces(id, front);
      TracksRun(id, front);
      RunKeepsId(id, front);
      LastOf(h);
      var s := Run(NewEmitter(id), front);
      match a
      case TextAction(t) =>
        forall j ensures Wanted(id, h)(j) == Wanted(id, front)(j) {
        }
        TextAnnounces(s, t, Wanted(id, h));
      case CallAction(c) =>
        CallAnnounces(s, front, c);
    }
  }

  lemma {:induction false} StopToolsAnnounces(s: Emitter, ks: seq<int>, want: int -> (string, string))
    requires Announces(s, want)
    ensures Announces(s.StopTools(ks), want)
    decreases |ks|
  {
    if ks != [] {
      var k := ks[0];
      if k !in s.toolBlocks {
        StopToolsAnnounces(s, ks[1..], want);
      } else {
        var t := s.StartTool(k);
        StartToolAnnounces(s, k, want);
        QuietAnnounces(t, BlockStop(t.toolBlocks[k].blockIndex), want);
        StopToolsAnnounces(t.Write(BlockStop(t.toolBlocks[k].blockIndex)), ks[1..], want);
      }
    }
  }

  lemma FinishAnnounces(s: Emitter, reason: string, want: int -> (string, string))
    requires Announces(s, want)
    ensures Announces(s.Finish(reason), want)
  {
    var t := TextStopped(s);
    if s.textStarted {
      QuietAnnounces(s, BlockStop(s.textBlockIndex), want);
    }
    StopToolsAnnounces(t, s.toolOrder, want);
    var u := t.StopTools(s.toolOrder);
    var e := MessageDelta(if reason == "" then "end_turn" else reason);
    QuietAnnounces(u, e, want);
    QuietAnnounces(u.Write(e), MessageStop, want);
  }

  /** MAIN RESULT. Every tool of the input is announced once, on its own block, under the id and
      name of the first of its fragments that has either, and made-up ones where that has none. */
  lemma ToolsAreAnnounced(id: string, h: seq<Action>, reason: string)
    ensures var s := Run(NewEmitter(id), h).Finish(reason);
      && (forall k :: k in Seen(h) ==>
           k in s.toolBlocks
           && Announced(s.out, s.toolBlocks[k].blockIndex) == [Label(id, k, FirstLabelled(h, k))])
      && (forall i :: i !in StartedBlocks(s.toolBlocks) ==> Announced(s.out, i) == [])
  {
    var s := Run(NewEmitter(id), h);
    RunAnnounces(id, h);
    FinishAnnounces(s, reason, Wanted(id, h));
    P.PayloadConserved(id, h, reason);
  }

  // ---------------------------------------------------------------- what the client holds

  /** A client's tool blocks are the blocks announced as tools, under the labels announced. */
  ghost predicate HoldsLabel(r: Reader, i: int, labels: seq<(string, string)>) {
    labels == if 0 <= i < |r.blocks| && r.blocks[i].ToolBlock? then [(r.blocks[i].id, r.blocks[i].name)] else []
  }

  lemma StepHoldsLabel(r: Reader, e: Event, i: int, labels: seq<(string, string)>)
    requires HoldsLabel(r, i, labels) && !r.Step(e).phase.Broken?
    ensures HoldsLabel(r.Step(e), i,
              labels + if e.ToolBlockStart? && e.index == i then [(e.id, e.name)] else [])
  {
    WithNothing(labels);
    WithNothing([("", "")]);
  }

  lemma {:induction false} ReaderKeepsLabels(trace: seq<Event>, i: int)
    requires !Read(trace).phase.Broken?
    ensures HoldsLabel(Read(trace), i, Announced(trace, i))
    decreases |trace|
  {
    if trace != [] {
      var front, e := trace[..|trace| - 1], trace[|trace| - 1];
      ReaderKeepsLabels(front, i);
      StepHoldsLabel(Read(front), e, i, Announced(front, i));
    }
  }

  /** MAIN RESULT. A client that can read the message holds one tool block for each tool of the input,
      under the label of its first labelled fragment and with all its arguments in order, and no
      other tool block. */
  lemma ClientHoldsTools(id: string, h: seq<Action>, reason: string)
    requires !(TextLast(h) && Seen(h) != Named(h))
    ensures var s := Run(NewEmitter(id), h).Finish(reason);
      var blocks := Read(s.out).blocks;
      && (forall k :: k in Seen(h) ==>
           && k in s.toolBlocks && 0 <= s.toolBlocks[k].blockIndex < |blocks|
           && var (toolId, name) := Label(id, k, FirstLabelled(h, k));
              blocks[s.toolBlocks[k].blockIndex] == ToolBlock(toolId, name, Args(h, k)))
      && DistinctBlocks(s.toolBlocks)
      && (forall i :: 0 <= i < |blocks| && blocks[i].ToolBlock? ==> i in StartedBlocks(s.toolBlocks))
  {
    var s := Run(NewEmitter(id), h).Finish(reason);
    WellFormedExactly(id, h, reason);
    P.PayloadConserved(id, h, reason);
    ToolsAreAnnounced(id, h, reason);
    forall i ensures HoldsLabel(Read(s.out), i, Announced(s.out, i))
      && HoldsJson(Read(s.out), i, JsonDeltas(s.out, i))
    {
      ReaderKeepsLabels(s.out, i);
      ReaderKeepsJson(s.out, i);
    }
  }

  lemma {:induction false} FirstsOf(h: seq<Action>, k: int)
    ensures match FirstLabelled(h, k)
      case None => FirstId(h, k) == "" && FirstName(h, k) == ""
      case Some(c) =>
        Labels(c) && (c.id != "" ==> FirstId(h, k) == c.id) && (c.name != "" ==> FirstName(h, k) == c.name)
    decreases |h|
  {
    if h != [] {
      FirstsOf(h[..|h| - 1], k);
    }
  }

  lemma OwnLabel(id: string, h: seq<Action>, k: int)
    requires k in Named(h)
    ensures var c := FirstLabelled(h, k);
      c.Some?
      && (Label(id, k, c) == (FirstId(h, k), FirstName(h, k)) <==>
           (c.value.id != "" || FirstId(h, k) == SyntheticId(id, k))
           && (c.value.name != "" || FirstName(h, k) == "tool"))
  {
    LabelledAreNamed(h, k);
    FirstsOf(h, k);
  }

  /** A tool is announced under its own id and name exactly when its first labelled fragment has
      both; otherwise only if what is made up happens to be what comes late. */
  lemma OwnLabelExactly(id: string, h: seq<Action>, reason: string, k: int)
    requires k in Named(h)
    ensures var s, c := Run(NewEmitter(id), h).Finish(reason), FirstLabelled(h, k);
      k in s.toolBlocks && c.Some?
      && (Announced(s.out, s.toolBlocks[k].blockIndex) == [(FirstId(h, k), FirstName(h, k))] <==>
           (c.value.id != "" || FirstId(h, k) == SyntheticId(id, k))
           && (c.value.name != "" || FirstName(h, k) == "tool"))
  {
    NamedAreSeen(h);
    ToolsAreAnnounced(id, h, reason);
    OwnLabel(id, h, k);
    SameOne(Label(id, k, FirstLabelled(h, k)), (FirstId(h, k), FirstName(h, k)));
  }

  lemma SameOne<T>(x: T, y: T)
    ensures [x] == [y] <==> x == y
  {
    assert [x][0] == x && [y][0] == y;
  }

  /** An id in one chunk and the name in the next: the tool is announced as "tool". */
  lemma LateNameIsLost(reason: string)
    ensures var h := [CallAction(ToolCallDelta(0, "x", "", "")), CallAction(ToolCallDelta(0, "", "f", ""))];
      var s := Run(NewEmitter("m"), h).Finish(reason);
      FirstName(h, 0) == "f"
      && 0 in s.toolBlocks && Announced(s.out, s.toolBlocks[0].blockIndex) == [("x", "tool")]
  {
    var h := [CallAction(ToolCallDelta(0, "x", "", "")), CallAction(ToolCallDelta(0, "", "f", ""))];
    var h1 := h[..1];
    assert h[..|h| - 1] == h1 && h1[..|h1| - 1] == [];
    assert FirstLabelled(h1, 0) == Some(h1[0].call);
    assert FirstName(h1, 0) == "";
    assert 0 in Seen(h1) && 0 in Seen(h);
    ToolsAreAnnounced("m", h, reason);
  }
}
