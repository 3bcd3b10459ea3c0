/** The event loop of `proxyAnthropicViaBedrockStream`, which drives the same emitter. */
module BedrockStream {
  import opened Text
  import opened AnthropicStream
  import opened Emitter
  import opened EmitterSafety
  import opened EmitterPayload
  import L = EmitterLabels

  datatype BedrockStop =
    | EndTurn | MaxTokens | ContextWindowExceeded | ContentFiltered | GuardrailIntervened
    | ToolUse | MalformedToolUse | StopSequence

  datatype BedrockEvent =
    | ToolUseStart(block: int, toolUseId: string, name: string)
    | TextPart(text: string)
    | ToolInput(block: int, input: string)
    | Stop(reason: BedrockStop)
    | OtherEvent

  function FinishReason(reason: BedrockStop): string {
    match reason
    case MaxTokens => "length"
    case ContextWindowExceeded => "length"
    case ContentFiltered => "content_filter"
    case GuardrailIntervened => "content_filter"
    case ToolUse => "tool_calls"
    case MalformedToolUse => "tool_calls"
    case _ => "stop"
  }

  /** Overwrite the id and name of a tool, even with empty ones. */
  function Relabel(s: Emitter, k: int, id: string, name: string): (t: Emitter)
    requires k in s.toolBlocks
    ensures t.toolBlocks.Keys == s.toolBlocks.Keys
  {
    s.(toolBlocks := s.toolBlocks[k := s.toolBlocks[k].(id := id, name := name)])
  }

  /** The emitter after one event. */
  function Apply(s: Emitter, e: BedrockEvent): Emitter {
    match e
    case ToolUseStart(k, id, name) => Relabel(s.Touch(k), k, id, name).StartTool(k)
    case TextPart(text) => s.WriteText(text)
    case ToolInput(k, input) =>
      if input == "" then s
      else
        var t := s.Touch(k).StartTool(k);
        t.Write(InputJsonDelta(t.toolBlocks[k].blockIndex, input))
    case Stop(_) => s
    case OtherEvent => s
  }

  function Run(s: Emitter, es: seq<BedrockEvent>): Emitter {
    if es == [] then s else Apply(Run(s, es[..|es| - 1]), es[|es| - 1])
  }

  function LastReason(es: seq<BedrockEvent>): string {
    if es == [] then "end_turn"
    else if es[|es| - 1].Stop? then StopReason(FinishReason(es[|es| - 1].reason))
    else LastReason(es[..|es| - 1])
  }

  function Translation(id: string, es: seq<BedrockEvent>): seq<Event> {
    Run(NewEmitter(id), es).Finish(LastReason(es)).out
  }

  /** An error of the stream is looked at once its events are used up. */
  function Delivered(id: string, es: seq<BedrockEvent>, readError: Option<string>): seq<Event> {
    if readError.Some? then Run(NewEmitter(id), es).out else Translation(id, es)
  }

  method WriteToolUseStart(state: StreamState, k: int, toolUseId: string, name: string)
    modifies state
    ensures state.State() == Apply(old(state.State()), ToolUseStart(k, toolUseId, name))
  {
    if k !in state.toolBlocks {
      state.toolBlocks := state.toolBlocks[k := NEW_TOOL];
      state.toolOrder := state.toolOrder + [k];
    }
    state.toolBlocks := state.toolBlocks[k := state.toolBlocks[k].(id := toolUseId, name := name)];
    state.StartToolBlock(k);
  }

  method WriteToolInput(state: StreamState, k: int, input: string)
    modifies state
    ensures state.State() == Apply(old(state.State()), ToolInput(k, input))
  {
    if input != "" {
      if k !in state.toolBlocks {
        state.toolBlocks := state.toolBlocks[k := NEW_TOOL];
        state.toolOrder := state.toolOrder + [k];
      }
      if !state.toolBlocks[k].started {
        state.StartToolBlock(k);
      }
      state.WriteToolInputDelta(k, input);
    }
  }

  method ProxyAnthropicViaBedrockStream(id: string, events: seq<BedrockEvent>, readError: Option<string>)
    returns (out: seq<Event>, failure: Option<string>)
    ensures out == Delivered(id, events, readError) && failure == readError
  {
    var state := new StreamState(id);
    state.WriteEvent(MessageStart);
    var stopReason := "end_turn";
    for i := 0 to |events|
      invariant state.id == id && fresh(state)
      invariant state.State() == Run(NewEmitter(id), events[..i])
      invariant stopReason == LastReason(events[..i])
    {
      TakeOneMore(events, i);
      match events[i]
      case ToolUseStart(k, toolUseId, name) =>
        WriteToolUseStart(state, k, toolUseId, name);
      case TextPart(text) =>
        if text != "" {
          state.WriteTextDelta(text);
        }
      case ToolInput(k, input) =>
        WriteToolInput(state, k, input);
      case Stop(reason) =>
        stopReason := StopReason(FinishReason(reason));
      case OtherEvent =>
    }
    assert events[..|events|] == events;
    if readError.Some? {
      return state.w, readError;
    }
    state.Finish(stopReason);
    out, failure := state.w, None;
  }

  // ---------------------------------------------------------------- safety

  /** No tool ever waits to be started. */
  ghost predicate Eager(s: Emitter) {
    Sync(s) && forall k :: k in s.toolBlocks ==> s.toolBlocks[k].started
  }

  lemma EagerStart(s: Emitter, k: int)
    requires Sync(s) && k in s.toolBlocks
    requires forall j :: j in s.toolBlocks && j != k ==> s.toolBlocks[j].started
    ensures Eager(s.StartTool(k))
  {
    SyncStartTool(s, k);
  }

  lemma EagerApply(s: Emitter, e: BedrockEvent)
    requires Eager(s)
    ensures Eager(Apply(s, e))
  {
    match e
    case ToolUseStart(k, id, name) =>
      SyncTouch(s, k);
      var t := Relabel(s.Touch(k), k, id, name);
      SyncRemember(s.Touch(k), k, t.toolBlocks[k]);
      EagerStart(t, k);
    case TextPart(text) => SyncText(s, text);
    case ToolInput(k, input) =>
      if input != "" {
        SyncTouch(s, k);
        EagerStart(s.Touch(k), k);
        SyncInput(s.Touch(k).StartTool(k), k, input);
      }
    case _ =>
  }

  lemma {:induction false} EagerRun(id: string, es: seq<BedrockEvent>)
    ensures Eager(Run(NewEmitter(id), es))
    decreases |es|
  {
    if es == [] {
      SyncStart(id);
    } else {
      EagerRun(id, es[..|es| - 1]);
      EagerApply(Run(NewEmitter(id), es[..|es| - 1]), es[|es| - 1]);
    }
  }

  lemma LastReasonNamed(es: seq<BedrockEvent>)
    ensures LastReason(es) in ["end_turn", "max_tokens", "tool_use", "refusal"]
  {
    if es != [] {
      LastReasonNamed(es[..|es| - 1]);
    }
  }

  /** MAIN RESULT. On this path every event sequence whatever becomes a correct message. */
  lemma TranslationWellFormed(id: string, es: seq<BedrockEvent>)
    ensures WellFormed(Translation(id, es))
    ensures Read(Translation(id, es)).phase == Stopped(LastReason(es))
  {
    EagerRun(id, es);
    LastReasonNamed(es);
    FinishDecides(Run(NewEmitter(id), es), LastReason(es));
  }

  /** What a stop of the upstream means to an Anthropic client. */
  function Meaning(reason: BedrockStop): string {
    if reason == MaxTokens || reason == ContextWindowExceeded then "max_tokens"
    else if reason == ContentFiltered || reason == GuardrailIntervened then "refusal"
    else if reason == ToolUse || reason == MalformedToolUse then "tool_use"
    else "end_turn"
  }

  lemma {:induction false} LastStop(es: seq<BedrockEvent>, i: nat)
    requires i < |es| && es[i].Stop? && forall j :: i < j < |es| ==> !es[j].Stop?
    ensures LastReason(es) == Meaning(es[i].reason)
    decreases |es|
  {
    if i < |es| - 1 {
      LastStop(es[..|es| - 1], i);
    } else {
      StopMeans(es[i].reason);
    }
  }

  lemma StopMeans(reason: BedrockStop)
    ensures StopReason(FinishReason(reason)) == Meaning(reason)
  {
  }

  lemma {:induction false} NoStop(es: seq<BedrockEvent>)
    requires forall j :: 0 <= j < |es| ==> !es[j].Stop?
    ensures LastReason(es) == "end_turn"
    decreases |es|
  {
    if es != [] {
      NoStop(es[..|es| - 1]);
    }
  }

  /** The message stops for the reason of the last stop event, in the client's words, and with `end_turn` if
      there is none. */
  lemma ReasonArrives(id: string, es: seq<BedrockEvent>)
    ensures forall i :: 0 <= i < |es| && es[i].Stop? && (forall j :: i < j < |es| ==> !es[j].Stop?) ==>
      Read(Translation(id, es)).phase == Stopped(Meaning(es[i].reason))
    ensures (forall j :: 0 <= j < |es| ==> !es[j].Stop?) ==> Read(Translation(id, es)).phase == Stopped("end_turn")
  {
    TranslationWellFormed(id, es);
    forall i | 0 <= i < |es| && es[i].Stop? && forall j :: i < j < |es| ==> !es[j].Stop?
      ensures LastReason(es) == Meaning(es[i].reason)
    {
      LastStop(es, i);
    }
    if forall j :: 0 <= j < |es| ==> !es[j].Stop? {
      NoStop(es);
    }
  }

  /** A stream that fails leaves the client with a message that breaks no rule and never ends. */
  lemma FailureIsSeen(id: string, es: seq<BedrockEvent>, error: string)
    ensures Read(Delivered(id, es, Some(error))).phase.Streaming?
  {
    EagerRun(id, es);
  }

  /** With or without an error: the client holds a whole message exactly if there was none. */
  lemma DeliveredWellFormed(id: string, es: seq<BedrockEvent>, error: Option<string>)
    ensures WellFormed(Delivered(id, es, error)) <==> error.None?
  {
    TranslationWellFormed(id, es);
    if error.Some? {
      FailureIsSeen(id, es, error.value);
    }
  }

  // ---------------------------------------------------------------- payload

  function Texts(es: seq<BedrockEvent>): string {
    if es == [] then ""
    else
      var e := es[|es| - 1];
      Texts(es[..|es| - 1]) + if e.TextPart? then e.text else ""
  }

  function Inputs(es: seq<BedrockEvent>, k: int): string {
    if es == [] then ""
    else
      var e := es[|es| - 1];
      Inputs(es[..|es| - 1], k) + if e.ToolInput? && e.block == k then e.input else ""
  }

  lemma RelabelTidy(s: Emitter, k: int, id: string, name: string)
    requires Tidy(s) && k in s.toolBlocks
    ensures Adds(s, Relabel(s, k, id, name), k, "")
  {
    var t := Relabel(s, k, id, name);
    if s.toolBlocks[k].started {
      forall i | i in StartedBlocks(s.toolBlocks)
        ensures i in StartedBlocks(t.toolBlocks)
      {
        var l :| l in s.toolBlocks && s.toolBlocks[l].started && s.toolBlocks[l].blockIndex == i;
        assert t.toolBlocks[l].started && t.toolBlocks[l].blockIndex == i;
      }
      assert StartedBlocks(t.toolBlocks) == StartedBlocks(s.toolBlocks);
    } else {
      RememberTidy(s, k, t.toolBlocks[k]);
      assert Payload(s, k) == s.toolBlocks[k].pendingJSON;
    }
  }

  lemma InputEventTidy(s: Emitter, k: int, input: string)
    requires Tidy(s)
    ensures Adds(s, Apply(s, ToolInput(k, input)), k, input)
  {
    if input != "" {
      var t := s.Touch(k);
      TouchTidy(s, k);
      StartToolTidy(t, k);
      AddsThen(s, t, t.StartTool(k), k, "", "");
      InputTidy(t.StartTool(k), k, input);
      AddsThen(s, t.StartTool(k), Apply(s, ToolInput(k, input)), k, "", input);
      WithNothing(input);
    }
  }

  lemma StartEventTidy(s: Emitter, k: int, id: string, name: string)
    requires Tidy(s)
    ensures Adds(s, Apply(s, ToolUseStart(k, id, name)), k, "")
  {
    TouchTidy(s, k);
    RelabelTidy(s.Touch(k), k, id, name);
    StartToolTidy(Relabel(s.Touch(k), k, id, name), k);
  }

  lemma {:induction false} PayloadRun(id: string, es: seq<BedrockEvent>)
    ensures var s := Run(NewEmitter(id), es);
      Tidy(s) && TextDeltas(s.out) == Texts(es) && (forall k :: Payload(s, k) == Inputs(es, k))
    decreases |es|
  {
    if es == [] {
      EmitterPayload.PayloadRun(id, []);
    } else {
      var front, e := es[..|es| - 1], es[|es| - 1];
      PayloadRun(id, front);
      var s := Run(NewEmitter(id), front);
      assert Texts(front) + "" == Texts(front);
      assert forall k :: Inputs(front, k) + "" == Inputs(front, k);
      match e
      case ToolUseStart(k, toolUseId, name) => StartEventTidy(s, k, toolUseId, name);
      case TextPart(text) => WriteTextTidy(s, text);
      case ToolInput(k, input) => InputEventTidy(s, k, input);
      case _ =>
    }
  }

  /** MAIN RESULT. All text and all tool input of the Bedrock stream reach the client, in order: each
      tool's input at a block of its own, and none at any other. */
  lemma PayloadConserved(id: string, es: seq<BedrockEvent>)
    ensures var s := Run(NewEmitter(id), es);
      var end := s.Finish(LastReason(es));
      && end.out == Translation(id, es)
      && TextDeltas(end.out) == Texts(es)
      && end.toolBlocks.Keys == s.toolBlocks.Keys
      && (forall k :: k in s.toolBlocks ==>
           end.toolBlocks[k].started && JsonDeltas(end.out, end.toolBlocks[k].blockIndex) == Inputs(es, k))
      && (forall k :: k !in s.toolBlocks ==> Inputs(es, k) == "")
      && DistinctBlocks(end.toolBlocks)
      && (forall i :: i !in StartedBlocks(end.toolBlocks) ==> JsonDeltas(end.out, i) == "")
  {
    var s := Run(NewEmitter(id), es);
    PayloadRun(id, es);
    EagerRun(id, es);
    FinishTidy(s, LastReason(es));
    forall k
      ensures if k in s.toolBlocks
        then JsonDeltas(s.Finish(LastReason(es)).out, s.Finish(LastReason(es)).toolBlocks[k].blockIndex)
          == Inputs(es, k)
        else Inputs(es, k) == ""
    {
      ToolPayload(s, s.Finish(LastReason(es)), k, Inputs(es, k));
    }
  }

  /** Once finished, a tool's payload is what its block received. */
  /** With or without an error: the client has all the text of the events that came. */
  lemma DeliveredText(id: string, es: seq<BedrockEvent>, error: Option<string>)
    ensures TextDeltas(Delivered(id, es, error)) == Texts(es)
  {
    PayloadConserved(id, es);
    PayloadRun(id, es);
  }

  lemma ToolPayload(s: Emitter, end: Emitter, k: int, input: string)
    requires Payload(s, k) == input == Payload(end, k) && end.toolBlocks.Keys == s.toolBlocks.Keys
    requires k in end.toolBlocks ==> end.toolBlocks[k].started && end.toolBlocks[k].pendingJSON == ""
    ensures if k in s.toolBlocks then JsonDeltas(end.out, end.toolBlocks[k].blockIndex) == input else input == ""
  {
  }

  // ---------------------------------------------------------------- labels

  /** The id and name tool `k` has when its block starts: those of its first start, none if input
      comes before any. */
  function FirstLabel(es: seq<BedrockEvent>, k: int): Option<(string, string)> {
    if es == [] then None
    else
      match FirstLabel(es[..|es| - 1], k)
      case Some(l) => Some(l)
      case None =>
        match es[|es| - 1]
        case ToolUseStart(block, id, name) => if block == k then Some((id, name)) else None
        case ToolInput(block, input) => if block == k && input != "" then Some(("", "")) else None
        case _ => None
  }

  function Completed(message: string, k: int, given: Option<(string, string)>): (string, string) {
    var (id, name) := if given.Some? then given.value else ("", "");
    (if id == "" then SyntheticId(message, k) else id, if name == "" then "tool" else name)
  }

  function Wanted(message: string, es: seq<BedrockEvent>): int -> (string, string) {
    j => Completed(message, j, FirstLabel(es, j))
  }

  /** The tools that have a label are those the emitter knows. */
  ghost predicate Labelled(s: Emitter, es: seq<BedrockEvent>) {
    && (forall k :: k in s.toolBlocks <==> FirstLabel(es, k).Some?)
    && (forall k :: k in s.toolBlocks ==> s.toolBlocks[k].started)
    && L.Announces(s, Wanted(s.id, es))
  }

  lemma FirstLabelSnoc(es: seq<BedrockEvent>, e: BedrockEvent, k: int)
    ensures FirstLabel(es + [e], k) ==
      if FirstLabel(es, k).Some? then FirstLabel(es, k)
      else if e.ToolUseStart? && e.block == k then Some((e.toolUseId, e.name))
      else if e.ToolInput? && e.block == k && e.input != "" then Some(("", ""))
      else None
  {
    WithoutLast(es, e);
  }

  /** What is wanted after an event that touches tool `k`. */
  lemma WantedAfter(message: string, es: seq<BedrockEvent>, e: BedrockEvent, k: int, id: string, name: string)
    requires e == ToolUseStart(k, id, name) || (e.ToolInput? && e.block == k && e.input != "" && id == name == "")
    ensures FirstLabel(es + [e], k).Some?
    ensures forall j ::
      FirstLabel(es + [e], j) == if j == k && FirstLabel(es, k).None? then Some((id, name)) else FirstLabel(es, j)
    ensures forall j :: j != k || FirstLabel(es, k).Some? ==> Wanted(message, es + [e])(j) == Wanted(message, es)(j)
    ensures FirstLabel(es, k).None? ==> Wanted(message, es + [e])(k) == Completed(message, k, Some((id, name)))
  {
    forall j ensures FirstLabel(es + [e], j) ==
      if j == k && FirstLabel(es, k).None? then Some((id, name)) else FirstLabel(es, j)
    {
      FirstLabelSnoc(es, e, j);
    }
  }

  lemma RelabelAnnounces(s: Emitter, k: int, id: string, name: string, was: int -> (string, string),
                         want: int -> (string, string))
    requires L.Announces(s, was)
    requires forall j :: j != k || k in s.toolBlocks ==> want(j) == was(j)
    requires k in s.toolBlocks ==> s.toolBlocks[k].started
    requires k !in s.toolBlocks ==> want(k) == Completed(s.id, k, Some((id, name)))
    ensures L.Announces(Relabel(s.Touch(k), k, id, name), want)
  {
    var t := Relabel(s.Touch(k), k, id, name);
    assert t.toolBlocks == s.toolBlocks[k := t.toolBlocks[k]];
    L.RememberAnnounces(s, t, k, was, want);
  }

  /** A tool is touched and relabelled, and started if it is new. */
  lemma StartLabels(s: Emitter, es: seq<BedrockEvent>, e: BedrockEvent, k: int, id: string, name: string)
    requires Labelled(s, es) && (k !in s.toolBlocks || e.ToolUseStart?)
    requires e == ToolUseStart(k, id, name) || (e.ToolInput? && e.block == k && e.input != "" && id == name == "")
    ensures Labelled(Relabel(s.Touch(k), k, id, name).StartTool(k), es + [e])
  {
    var want := Wanted(s.id, es + [e]);
    WantedAfter(s.id, es, e, k, id, name);
    RelabelAnnounces(s, k, id, name, Wanted(s.id, es), want);
    L.StartToolAnnounces(Relabel(s.Touch(k), k, id, name), k, want);
    TouchedAndStarted(s, k, id, name);
  }

  lemma TouchedAndStarted(s: Emitter, k: int, id: string, name: string)
    ensures var u := Relabel(s.Touch(k), k, id, name).StartTool(k);
      && u.id == s.id
      && (forall j :: j in u.toolBlocks <==> j == k || j in s.toolBlocks)
      && (forall j :: j in u.toolBlocks ==> (u.toolBlocks[j].started <==> j == k || s.toolBlocks[j].started))
  {
    StartKeepsOthers(Relabel(s.Touch(k), k, id, name), k);
  }

  lemma StartKeepsOthers(s: Emitter, k: int)
    requires k in s.toolBlocks
    ensures var t := s.StartTool(k);
      && t.id == s.id && t.toolBlocks.Keys == s.toolBlocks.Keys && t.toolBlocks[k].started
      && (forall j :: j in s.toolBlocks && j != k ==> t.toolBlocks[j] == s.toolBlocks[j])
  {
  }

  lemma WriteLabels(s: Emitter, es: seq<BedrockEvent>, i: int, input: string)
    requires Labelled(s, es)
    ensures Labelled(s.Write(InputJsonDelta(i, input)), es)
  {
    L.QuietAnnounces(s, InputJsonDelta(i, input), Wanted(s.id, es));
  }

  lemma InputLabels(s: Emitter, es: seq<BedrockEvent>, k: int, input: string)
    requires Labelled(s, es)
    ensures Labelled(Apply(s, ToolInput(k, input)), es + [ToolInput(k, input)])
  {
    var e := ToolInput(k, input);
    if input == "" {
      SameLabels(s, es, e);
    } else if k in s.toolBlocks {
      SameLabels(s, es, e);
      WriteLabels(s, es + [e], s.toolBlocks[k].blockIndex, input);
    } else {
      StartLabels(s, es, e, k, "", "");
      Unlabelled(s.Touch(k), k);
      var u := s.Touch(k).StartTool(k);
      WriteLabels(u, es + [e], u.toolBlocks[k].blockIndex, input);
    }
  }

  lemma Unlabelled(s: Emitter, k: int)
    requires k in s.toolBlocks && s.toolBlocks[k].id == "" && s.toolBlocks[k].name == ""
    ensures Relabel(s, k, "", "") == s
  {
    assert s.toolBlocks[k := s.toolBlocks[k]] == s.toolBlocks;
  }

  /** An event that labels nothing new. */
  lemma SameLabels(s: Emitter, es: seq<BedrockEvent>, e: BedrockEvent)
    requires Labelled(s, es) && !e.ToolUseStart?
    requires e.ToolInput? && e.input != "" ==> e.block in s.toolBlocks
    ensures Labelled(s, es + [e])
  {
    forall j ensures FirstLabel(es + [e], j) == FirstLabel(es, j) {
      FirstLabelSnoc(es, e, j);
    }
    forall j ensures Wanted(s.id, es + [e])(j) == Wanted(s.id, es)(j) {
    }
  }

  lemma TextLabels(s: Emitter, es: seq<BedrockEvent>, text: string)
    requires Labelled(s, es)
    ensures Labelled(s.WriteText(text), es + [TextPart(text)])
  {
    SameLabels(s, es, TextPart(text));
    L.TextAnnounces(s, text, Wanted(s.id, es + [TextPart(text)]));
  }

  lemma {:induction false} LabelsRun(id: string, es: seq<BedrockEvent>)
    ensures Labelled(Run(NewEmitter(id), es), es) && Run(NewEmitter(id), es).id == id
    decreases |es|
  {
    if es == [] {
      L.RunAnnounces(id, []);
    } else {
      var front, e := es[..|es| - 1], es[|es| - 1];
      LabelsRun(id, front);
      LastOf(es);
      var s := Run(NewEmitter(id), front);
      match e
      case ToolUseStart(k, toolUseId, name) => StartLabels(s, front, e, k, toolUseId, name);
      case TextPart(text) => TextLabels(s, front, text);
      case ToolInput(k, input) => InputLabels(s, front, k, input);
      case _ => SameLabels(s, front, e);
    }
  }

  /** MAIN RESULT. Every tool is announced once, on its own block, under the id and name of its first
      start, made up where that lacks them or input comes before it. */
  lemma ToolsAreAnnounced(id: string, es: seq<BedrockEvent>)
    ensures var end := Run(NewEmitter(id), es).Finish(LastReason(es));
      && end.out == Translation(id, es)
      && (forall k :: k in end.toolBlocks <==> FirstLabel(es, k).Some?)
      && (forall k :: k in end.toolBlocks ==>
           L.Announced(end.out, end.toolBlocks[k].blockIndex) == [Completed(id, k, FirstLabel(es, k))])
      && (forall i :: i !in StartedBlocks(end.toolBlocks) ==> L.Announced(end.out, i) == [])
  {
    var s := Run(NewEmitter(id), es);
    LabelsRun(id, es);
    L.FinishAnnounces(s, LastReason(es), Wanted(id, es));
    PayloadConserved(id, es);
  }
}
