/** Events of an Anthropic Messages stream, and the client that reads them back.
    `Read` is the reference against which the emitter is judged: it is written from the
    stream's rules, not from the emitter. */
module AnthropicStream {
  datatype Event =
    | MessageStart
    | TextBlockStart(index: int)
    | ToolBlockStart(index: int, id: string, name: string)
    | OtherBlockStart(index: int)                    // thinking and other kinds
    | TextDelta(index: int, text: string)
    | InputJsonDelta(index: int, partialJson: string)
    | OtherDelta(index: int)                         // thinking and signature deltas
    | BlockStop(index: int)
    | MessageDelta(stopReason: string)
    | MessageStop
    | StreamError(message: string)
    | Ping                                           // and every line that is not an event

  datatype Block =
    | TextBlock(text: string)
    | ToolBlock(id: string, name: string, json: string)
    | OtherBlock

  datatype Phase =
    | NotStarted
    | Streaming
    | Closing(reason: string)
    | Stopped(reason: string)
    | Broken

  /** What a client knows: how far the message is, the blocks so far, which are still open. */
  datatype Reader = Reader(phase: Phase, blocks: seq<Block>, open: set<int>) {
    function Fail(): Reader {
      this.(phase := Broken)
    }

    function StartBlock(i: int, b: Block): Reader {
      if phase.Streaming? && i == |blocks| then
        this.(blocks := blocks + [b], open := open + {i})
      else Fail()
    }

    predicate OpenAt(i: int) {
      phase.Streaming? && i in open && 0 <= i < |blocks|
    }

    /** Blocks are numbered 0, 1, 2, ...; deltas go to an open block of their own kind; a stop
        closes an open block; the message ends once, after every block is closed. */
    function Step(e: Event): Reader {
      match e
      case MessageStart => if phase.NotStarted? then this.(phase := Streaming) else Fail()
      case TextBlockStart(i) => StartBlock(i, TextBlock(""))
      case ToolBlockStart(i, id, name) => StartBlock(i, ToolBlock(id, name, ""))
      case OtherBlockStart(i) => StartBlock(i, OtherBlock)
      case TextDelta(i, t) =>
        if OpenAt(i) && blocks[i].TextBlock? then
          this.(blocks := blocks[i := TextBlock(blocks[i].text + t)])
        else Fail()
      case InputJsonDelta(i, j) =>
        if OpenAt(i) && blocks[i].ToolBlock? then
          this.(blocks := blocks[i := blocks[i].(json := blocks[i].json + j)])
        else Fail()
      case OtherDelta(i) => if OpenAt(i) && blocks[i].OtherBlock? then this else Fail()
      case BlockStop(i) => if OpenAt(i) then this.(open := open - {i}) else Fail()
      case MessageDelta(reason) =>
        if phase.Streaming? && open == {} then this.(phase := Closing(reason)) else Fail()
      case MessageStop => if phase.Closing? then this.(phase := Stopped(phase.reason)) else Fail()
      case StreamError(_) => Fail()
      case Ping => this
    }
  }

  const NEW_READER := Reader(NotStarted, [], {})

  function Read(trace: seq<Event>): Reader {
    if trace == [] then NEW_READER else Read(trace[..|trace| - 1]).Step(trace[|trace| - 1])
  }

  /** A complete message, every rule kept. */
  predicate WellFormed(trace: seq<Event>) {
    Read(trace).phase.Stopped?
  }

  lemma ReadAppend(trace: seq<Event>, e: Event)
    ensures Read(trace + [e]) == Read(trace).Step(e)
  {
    assert (trace + [e])[..|trace|] == trace;
  }

  lemma {:induction false} BrokenForever(trace: seq<Event>, more: seq<Event>)
    requires Read(trace).phase.Broken?
    ensures Read(trace + more).phase.Broken?
    decreases |more|
  {
    if more == [] {
      assert trace + more == trace;
    } else {
      BrokenForever(trace, more[..|more| - 1]);
      assert trace + more == (trace + more[..|more| - 1]) + [more[|more| - 1]];
      ReadAppend(trace + more[..|more| - 1], more[|more| - 1]);
    }
  }

  /** All text a trace carries, in order, whatever blocks it belongs to. */
  function TextDeltas(trace: seq<Event>): string {
    if trace == [] then ""
    else
      var last := trace[|trace| - 1];
      TextDeltas(trace[..|trace| - 1]) + if last.TextDelta? then last.text else ""
  }

  /** All tool input a trace carries for block `i`, in order. */
  function JsonDeltas(trace: seq<Event>, i: int): string {
    if trace == [] then ""
    else
      var last := trace[|trace| - 1];
      JsonDeltas(trace[..|trace| - 1], i)
      + if last.InputJsonDelta? && last.index == i then last.partialJson else ""
  }

  lemma TextDeltasAppend(trace: seq<Event>, e: Event)
    ensures TextDeltas(trace + [e]) == TextDeltas(trace) + if e.TextDelta? then e.text else ""
  {
    assert (trace + [e])[..|trace|] == trace;
  }

  lemma JsonDeltasAppend(trace: seq<Event>, e: Event, i: int)
    ensures JsonDeltas(trace + [e], i)
         == JsonDeltas(trace, i) + if e.InputJsonDelta? && e.index == i then e.partialJson else ""
  {
    assert (trace + [e])[..|trace|] == trace;
  }

  /** The client holds `json` as the input of block `i`; no block beyond its list has any. */
  predicate HoldsJson(r: Reader, i: int, json: string) {
    if 0 <= i < |r.blocks| then r.blocks[i].ToolBlock? ==> r.blocks[i].json == json
    else json == ""
  }

  lemma StepHoldsJson(r: Reader, e: Event, i: int, json: string)
    requires HoldsJson(r, i, json) && !r.Step(e).phase.Broken?
    ensures HoldsJson(r.Step(e), i,
              json + if e.InputJsonDelta? && e.index == i then e.partialJson else "")
  {
    assert json + "" == json;
  }

  /** A client that accepts a trace holds, block by block, exactly the input JSON sent to it. */
  lemma {:induction false} ReaderKeepsJson(trace: seq<Event>, i: int)
    requires !Read(trace).phase.Broken?
    ensures HoldsJson(Read(trace), i, JsonDeltas(trace, i))
    decreases |trace|
  {
    if trace != [] {
      var front, e := trace[..|trace| - 1], trace[|trace| - 1];
      ReaderKeepsJson(front, i);
      StepHoldsJson(Read(front), e, i, JsonDeltas(front, i));
    }
  }
}
