/** An Anthropic conversation sent to Bedrock through the OpenAI form: tool uses stay paired with
    their results. */
module ToolPairing {
  import opened Text
  import opened Messages
  import A = AnthropicToOpenAI
  import opened OpenAIToBedrock
  import C = ConversationRoundTrip

  // ---------------------------------------------------------------- what a turn means

  function ResultOf<J>(b: ABlock<J>): BBlock<J>
    requires b.AToolResult?
  {
    BToolResult(b.toolUseId, A.Reading(b.content), b.isError)
  }

  /** The tool results of a user turn, wherever they stand. */
  function Results<J>(blocks: seq<ABlock<J>>): seq<BBlock<J>> {
    if blocks == [] then []
    else (if blocks[0].AToolResult? then [ResultOf(blocks[0])] else []) + Results(blocks[1..])
  }

  /** The blocks before the next tool result. */
  function Run<J>(blocks: seq<ABlock<J>>): seq<ABlock<J>> {
    if blocks == [] || blocks[0].AToolResult? then [] else [blocks[0]] + Run(blocks[1..])
  }

  function AfterRun<J>(blocks: seq<ABlock<J>>): (r: seq<ABlock<J>>)
    ensures |r| <= |blocks|
    ensures r == [] || r[0].AToolResult?
  {
    if blocks == [] || blocks[0].AToolResult? then blocks else AfterRun(blocks[1..])
  }

  predicate RealImage<J>(b: ABlock<J>) {
    b.AImage? && b.mediaType != "" && b.data != ""
  }

  predicate HasImage<J>(blocks: seq<ABlock<J>>) {
    blocks != [] && (RealImage(blocks[0]) || HasImage(blocks[1..]))
  }

  /** A block that becomes a part of a user message: a text, even a blank one, or an image. */
  predicate Speaks<J>(b: ABlock<J>) {
    (b.AText? && b.text != "") || RealImage(b)
  }

  predicate Silent<J>(blocks: seq<ABlock<J>>) {
    forall i :: 0 <= i < |blocks| ==> !Speaks(blocks[i])
  }

  function Texts<J>(blocks: seq<ABlock<J>>): seq<string> {
    if blocks == [] then []
    else (if blocks[0].AText? && blocks[0].text != "" then [blocks[0].text] else []) + Texts(blocks[1..])
  }

  function Paragraph<J>(texts: seq<string>): seq<BBlock<J>> {
    if texts == [] then [] else [BText(Lines(texts))]
  }

  /** Texts and images in order, the texts between two images joined; `texts` came before. */
  function Illustrated<J>(d: Decoders<J>, blocks: seq<ABlock<J>>, texts: seq<string>): seq<BBlock<J>> {
    if blocks == [] then Paragraph(texts)
    else
      match blocks[0]
      case AText(t) => Illustrated(d, blocks[1..], if t == "" then texts else texts + [t])
      case AImage(m, data) =>
        if RealImage(blocks[0]) && d.image(DataUrl(m, data)).Some? then
          Paragraph<J>(texts) + [BImage(d.image(DataUrl(m, data)).value)] + Illustrated(d, blocks[1..], [])
        else Illustrated(d, blocks[1..], texts)
      case _ => Illustrated(d, blocks[1..], texts)
  }

  function PlainText<J>(text: string): seq<BBlock<J>> {
    if Blank(text) then [] else [BText(text)]
  }

  function Speech<J>(d: Decoders<J>, blocks: seq<ABlock<J>>): seq<BBlock<J>> {
    if HasImage(blocks) then Illustrated(d, blocks, []) else PlainText(Lines(Texts(blocks)))
  }

  /** The input a tool use arrives with, unless it is text that is no JSON. */
  function InputOf<J>(codec: Codec<J>, input: ToolInput<J>): Option<J> {
    match input
    case NoInput => Some(codec.emptyObject)
    case TextInput(t) => if Blank(t) then Some(codec.emptyObject) else codec.decode(t)
    case ObjectInput(v) => Some(v)
  }

  /** A tool use without a name is dropped; a missing id is made up. */
  function UseOf<J>(codec: Codec<J>, b: ABlock<J>): seq<BBlock<J>>
    requires b.AToolUse?
  {
    if b.name == "" || InputOf(codec, b.input).None? then []
    else [BToolUse(if Blank(b.id) then codec.newId else b.id, b.name, InputOf(codec, b.input).value)]
  }

  function ToolUses<J>(d: Decoders<J>, blocks: seq<ABlock<J>>): seq<BBlock<J>> {
    if blocks == [] then []
    else
      var last := blocks[|blocks| - 1];
      ToolUses(d, blocks[..|blocks| - 1]) + if last.AToolUse? then UseOf(d.codec, last) else []
  }

  function Message<J>(role: string, content: seq<BBlock<J>>): seq<BMessage<J>> {
    if content == [] then [] else [BMessage(role, content)]
  }

  /** What a turn says at once: an assistant turn its text and its tool uses, any other turn only
      if it has no blocks. */
  function TurnContent<J>(d: Decoders<J>, t: AMessage<J>): seq<BBlock<J>> {
    match t.content
    case AString(text) => PlainText(text)
    case ANone => []
    case ABlocks(blocks) =>
      if t.role == "assistant" then PlainText(Lines(Texts(blocks))) + ToolUses(d, blocks) else []
  }

  function SpeakerOf<J>(t: AMessage<J>): string {
    if t.role == "assistant" then "assistant" else "user"
  }

  /** A user turn with a result, a text or an image among its blocks. */
  predicate Piecewise<J>(t: AMessage<J>) {
    t.role != "assistant" && t.content.ABlocks? && !(Silent(t.content.blocks) && AfterRun(t.content.blocks) == [])
  }

  /** The messages of a conversation, the results `held` waiting: results gather, from one user turn
      to the next if need be, until something is spoken. */
  function ConversationMessages<J>(d: Decoders<J>, ts: seq<AMessage<J>>, held: seq<BBlock<J>>): seq<BMessage<J>>
    decreases |ts|, 0
  {
    if ts == [] then Message("user", held)
    else if Piecewise(ts[0]) then UserMessages(d, ts[0].content.blocks, held, ts[1..])
    else
      Message("user", held) + Message(SpeakerOf(ts[0]), TurnContent(d, ts[0])) + ConversationMessages(d, ts[1..], [])
  }

  /** The blocks of a user turn, then the turns that follow it. */
  function UserMessages<J>(
      d: Decoders<J>, blocks: seq<ABlock<J>>, held: seq<BBlock<J>>, rest: seq<AMessage<J>>): seq<BMessage<J>>
    decreases |rest|, 1 + |blocks|
  {
    if blocks == [] then ConversationMessages(d, rest, held)
    else if blocks[0].AToolResult? then UserMessages(d, blocks[1..], held + [ResultOf(blocks[0])], rest)
    else
      var run, more := Run(blocks), AfterRun(blocks[1..]);
      if Silent(run) then UserMessages(d, more, held, rest)
      else Message("user", held) + Message("user", Speech(d, run)) + UserMessages(d, more, [], rest)
  }

  // ---------------------------------------------------------------- which turns can be sent

  /** A result with an id, or an image Bedrock can take. */
  predicate SendableBlock<J>(d: Decoders<J>, b: ABlock<J>) {
    (b.AToolResult? ==> !Blank(b.toolUseId))
    && (RealImage(b) ==> d.image(DataUrl(b.mediaType, b.data)).Some?)
  }

  predicate SendableBlocks<J>(d: Decoders<J>, blocks: seq<ABlock<J>>) {
    forall i :: 0 <= i < |blocks| ==> SendableBlock(d, blocks[i])
  }

  /** A tool use without a name is dropped; of the others the name is not blank and the input, if it
      is text, is JSON. */
  predicate SendableUse<J>(d: Decoders<J>, b: ABlock<J>) {
    b.AToolUse? && b.name != "" ==> !Blank(b.name) && InputOf(d.codec, b.input).Some?
  }

  /** Tool results carry an id. */
  predicate Sendable<J>(d: Decoders<J>, t: AMessage<J>) {
    t.content.ABlocks? ==>
      var blocks := t.content.blocks;
      if t.role == "assistant" then
        forall i :: 0 <= i < |blocks| ==> SendableUse(d, blocks[i])
      else SendableBlocks(d, blocks)
  }

  // ---------------------------------------------------------------- single messages

  lemma UserRole()
    ensures RoleName("user") == "user"
  {
    assert TrimLeft("user") == "user" && TrimRight("user") == "user" && Lower("user") == "user";
  }

  lemma AssistantRole()
    ensures RoleName("assistant") == "assistant"
  {
    assert TrimLeft("assistant") == "assistant" && TrimRight("assistant") == "assistant";
    assert Lower("assistant") == "assistant";
  }

  lemma ToolRole()
    ensures RoleName("tool") == "tool"
  {
    assert TrimLeft("tool") == "tool" && TrimRight("tool") == "tool" && Lower("tool") == "tool";
  }

  lemma SystemRole()
    ensures RoleName("system") == "system"
  {
    assert TrimLeft("system") == "system" && TrimRight("system") == "system" && Lower("system") == "system";
  }

  /** A user or assistant message goes out after the held-back results. */
  lemma SpokenStep<J>(d: Decoders<J>, s: Input<J>, m: OMessage<J>, content: seq<BBlock<J>>)
    requires m.role == "user" || m.role == "assistant"
    requires SpokenBlocks(d, m.role, m) == Ok(content)
    ensures s.Step(d, m) == Ok(s.Flush().Say(m.role, content))
  {
    UserRole();
    AssistantRole();
  }

  lemma ToolStep<J>(d: Decoders<J>, s: Input<J>, m: OMessage<J>, b: BBlock<J>)
    requires m.role == "tool" && ResultBlock(m) == Ok(b)
    ensures s.Step(d, m) == Ok(s.(pending := s.pending + [b]))
  {
    ToolRole();
  }

  /** The messages taken in one after the other. */
  function Feed<J>(d: Decoders<J>, s: Input<J>, ms: seq<OMessage<J>>): Result<Input<J>>
    decreases |ms|
  {
    if ms == [] then Ok(s)
    else
      match s.Step(d, ms[0])
      case Err(e) => Err(e)
      case Ok(t) => Feed(d, t, ms[1..])
  }

  lemma FeedOne<J>(d: Decoders<J>, s: Input<J>, m: OMessage<J>)
    ensures Feed(d, s, [m]) == s.Step(d, m)
  {
    assert [m][1..] == [];
    if s.Step(d, m).Ok? {
      assert Feed(d, s.Step(d, m).value, []) == s.Step(d, m);
    }
  }

  lemma {:induction false} FeedAppend<J>(d: Decoders<J>, s: Input<J>, a: seq<OMessage<J>>, b: seq<OMessage<J>>)
    requires Feed(d, s, a).Ok?
    ensures Feed(d, s, a + b) == Feed(d, Feed(d, s, a).value, b)
    decreases |a|
  {
    if a == [] {
      assert a + b == b;
    } else {
      FirstOfJoin(a, b);
      FeedNext(d, s, a);
      FeedNext(d, s, a + b);
      FeedAppend(d, s.Step(d, a[0]).value, a[1..], b);
    }
  }

  lemma FeedNext<J>(d: Decoders<J>, s: Input<J>, ms: seq<OMessage<J>>)
    requires ms != []
    ensures s.Step(d, ms[0]).Ok? ==> Feed(d, s, ms) == Feed(d, s.Step(d, ms[0]).value, ms[1..])
    ensures s.Step(d, ms[0]).Err? ==> Feed(d, s, ms).Err?
  {
  }

  /** `Collect` takes the messages in one after the other. */
  lemma {:induction false} CollectFeeds<J>(d: Decoders<J>, ms: seq<OMessage<J>>)
    requires Feed(d, Input([], [], []), ms).Ok?
    ensures Collect(d, C.Wrap(ms)) == Feed(d, Input([], [], []), ms)
    decreases |ms|
  {
    if ms != [] {
      var front, last := ms[..|ms| - 1], ms[|ms| - 1];
      LastOf(ms);
      FrontFeeds(d, Input([], [], []), front, [last]);
      FeedAppend(d, Input([], [], []), front, [last]);
      CollectFeeds(d, front);
      FeedOne(d, Feed(d, Input([], [], []), front).value, last);
      WrapFront(ms);
    }
  }

  lemma WrapFront<M>(ms: seq<M>)
    requires ms != []
    ensures C.Wrap(ms)[..|ms| - 1] == C.Wrap(ms[..|ms| - 1])
  {
  }

  lemma {:induction false} FrontFeeds<J>(d: Decoders<J>, s: Input<J>, a: seq<OMessage<J>>, b: seq<OMessage<J>>)
    requires Feed(d, s, a + b).Ok?
    ensures Feed(d, s, a).Ok?
    decreases |a|
  {
    if a != [] {
      FirstOfJoin(a, b);
      FeedNext(d, s, a);
      FeedNext(d, s, a + b);
      FrontFeeds(d, s.Step(d, a[0]).value, a[1..], b);
    }
  }

  lemma ResultBlockOf<J>(b: ABlock<J>)
    requires b.AToolResult? && !Blank(b.toolUseId)
    ensures A.ResultMessage(b).role == "tool" && ResultBlock(A.ResultMessage(b)) == Ok(ResultOf(b))
  {
    A.ResultReads(b.content);
  }

  // ---------------------------------------------------------------- what a user turn says

  function Parts<J>(blocks: seq<ABlock<J>>): seq<OPart> {
    if blocks == [] then []
    else
      (match blocks[0]
       case AText(t) => if t == "" then [] else [OTextPart(t)]
       case AImage(m, data) => if m == "" || data == "" then [] else [OImagePart(UrlObject(DataUrl(m, data)), "")]
       case _ => [])
      + Parts(blocks[1..])
  }

  /** The parts collected up to the next result go out as one message. */
  lemma {:induction false} RunParts<J>(blocks: seq<ABlock<J>>, parts: seq<OPart>, rich: bool)
    ensures A.UserFrom(blocks, parts, rich)
      == A.Flush(parts + Parts(Run(blocks)), rich || HasImage(Run(blocks))) + A.UserFrom(AfterRun(blocks), [], false)
    decreases |blocks|
  {
    if blocks == [] || blocks[0].AToolResult? {
      WithNothing(parts);
      WithNothing(A.Flush<J>(parts, rich));
      if blocks != [] {
        Associative(A.Flush<J>(parts, rich), [A.ResultMessage(blocks[0])], A.UserFrom(blocks[1..], [], false));
        WithNothing([A.ResultMessage(blocks[0])]);
      }
    } else {
      var rest := blocks[1..];
      RunFirst(blocks);
      if blocks[0].AText? && blocks[0].text != "" {
        var p := OTextPart(blocks[0].text);
        RunParts(rest, parts + [p], rich);
        Associative(parts, [p], Parts(Run(rest)));
      } else if RealImage(blocks[0]) {
        var p := OImagePart(UrlObject(DataUrl(blocks[0].mediaType, blocks[0].data)), "");
        RunParts(rest, parts + [p], true);
        Associative(parts, [p], Parts(Run(rest)));
      } else {
        RunParts(rest, parts, rich);
        WithNothing(Parts(Run(rest)));
      }
    }
  }

  lemma RunFirst<J>(blocks: seq<ABlock<J>>)
    requires blocks != [] && !blocks[0].AToolResult?
    ensures Run(blocks) != [] && Run(blocks)[0] == blocks[0] && Run(blocks)[1..] == Run(blocks[1..])
    ensures AfterRun(blocks) == AfterRun(blocks[1..])
  {
  }

  /** A run has no results, and only blocks of the turn. */
  lemma {:induction false} RunIsPrefix<J>(blocks: seq<ABlock<J>>)
    ensures blocks == Run(blocks) + AfterRun(blocks)
    ensures forall i :: 0 <= i < |Run(blocks)| ==> !Run(blocks)[i].AToolResult?
    decreases |blocks|
  {
    if blocks != [] && !blocks[0].AToolResult? {
      RunIsPrefix(blocks[1..]);
      Associative([blocks[0]], Run(blocks[1..]), AfterRun(blocks[1..]));
    }
  }

  lemma {:induction false} SilentParts<J>(blocks: seq<ABlock<J>>)
    ensures Silent(blocks) <==> Parts(blocks) == []
    decreases |blocks|
  {
    if blocks != [] {
      SilentParts(blocks[1..]);
      if !Silent(blocks) && !Speaks(blocks[0]) {
        var i :| 0 <= i < |blocks| && Speaks(blocks[i]);
        assert Speaks(blocks[1..][i - 1]);
      }
    }
  }

  lemma ParagraphIs<J>(texts: seq<string>)
    requires forall i :: 0 <= i < |texts| ==> texts[i] != ""
    ensures TextBlocks<J>(texts) == Paragraph(texts)
  {
    JoinTexts(texts);
  }

  lemma {:induction false} IllustratedParts<J>(d: Decoders<J>, blocks: seq<ABlock<J>>, texts: seq<string>)
    requires SendableBlocks(d, blocks) && forall i :: 0 <= i < |texts| ==> texts[i] != ""
    ensures PartsFrom(d, "user", Parts(blocks), texts) == Ok(Illustrated(d, blocks, texts))
    decreases |blocks|
  {
    ParagraphIs<J>(texts);
    if blocks != [] {
      var rest := blocks[1..];
      if blocks[0].AText? && blocks[0].text != "" {
        IllustratedParts(d, rest, texts + [blocks[0].text]);
        assert Parts(blocks)[1..] == Parts(rest);
      } else if RealImage(blocks[0]) {
        AfterScheme(blocks[0].mediaType, blocks[0].data);
        IllustratedParts(d, rest, []);
        assert Parts(blocks)[1..] == Parts(rest);
      } else {
        IllustratedParts(d, rest, texts);
        assert Parts(blocks) == Parts(rest);
      }
    }
  }

  lemma {:induction false} PartTextsAppend(a: seq<OPart>, b: seq<OPart>)
    ensures PartTexts(a + b) == PartTexts(a) + PartTexts(b)
    decreases |b|
  {
    if b == [] {
      assert a + b == a;
    } else {
      assert (a + b)[..|a + b| - 1] == a + b[..|b| - 1];
      PartTextsAppend(a, b[..|b| - 1]);
    }
  }

  lemma {:induction false} PlainParts<J>(blocks: seq<ABlock<J>>)
    requires !HasImage(blocks)
    ensures PartTexts(Parts(blocks)) == Texts(blocks)
    decreases |blocks|
  {
    if blocks != [] {
      PlainParts(blocks[1..]);
      if blocks[0].AText? && blocks[0].text != "" {
        var part := [OTextPart(blocks[0].text)];
        assert PartTexts(part) == [blocks[0].text] by {
          assert part[..0] == [];
        }
        PartTextsAppend(part, Parts(blocks[1..]));
      } else {
        WithNothing(Parts(blocks[1..]));
      }
    }
  }

  lemma {:induction false} TextsNonEmpty<J>(blocks: seq<ABlock<J>>)
    ensures forall i :: 0 <= i < |Texts(blocks)| ==> Texts(blocks)[i] != ""
    decreases |blocks|
  {
    if blocks != [] {
      TextsNonEmpty(blocks[1..]);
    }
  }

  lemma {:induction false} TextsSnoc<J>(blocks: seq<ABlock<J>>, last: ABlock<J>)
    ensures Texts(blocks + [last]) == Texts(blocks) + if last.AText? && last.text != "" then [last.text] else []
    decreases |blocks|
  {
    var more := if last.AText? && last.text != "" then [last.text] else [];
    if blocks == [] {
      assert [last][1..] == [];
      WithNothing(more);
    } else {
      FirstOfJoin(blocks, [last]);
      TextsSnoc(blocks[1..], last);
      Associative(if blocks[0].AText? && blocks[0].text != "" then [blocks[0].text] else [], Texts(blocks[1..]), more);
    }
  }

  lemma {:induction false} TextsBothWays<J>(blocks: seq<ABlock<J>>)
    ensures A.AssistantTexts(blocks) == Texts(blocks)
    decreases |blocks|
  {
    if blocks != [] {
      TextsBothWays(blocks[..|blocks| - 1]);
      TextsSnoc(blocks[..|blocks| - 1], blocks[|blocks| - 1]);
      LastOf(blocks);
    }
  }

  lemma AssistantText<J>(blocks: seq<ABlock<J>>)
    ensures Join(A.AssistantTexts(blocks), "\n") == Lines(Texts(blocks))
  {
    TextsBothWays(blocks);
    TextsNonEmpty(blocks);
    JoinTexts(Texts(blocks));
  }

  /** The user message with the parts of `blocks`. */
  function SpeechMessage<J>(blocks: seq<ABlock<J>>): OMessage<J> {
    UserMessage(if HasImage(blocks) then OParts(Parts(blocks)) else OString(Join(PartTexts(Parts(blocks)), "\n")))
  }

  lemma SpeechMessageBlocks<J>(d: Decoders<J>, blocks: seq<ABlock<J>>)
    requires SendableBlocks(d, blocks)
    ensures SpokenBlocks(d, "user", SpeechMessage(blocks)) == Ok(Speech(d, blocks))
  {
    if HasImage(blocks) {
      IllustratedParts(d, blocks, []);
    } else {
      PlainParts(blocks);
      TextsNonEmpty(blocks);
      JoinTexts(Texts(blocks));
    }
  }

  /** A run is one user message, or none; any message lets the held results go. */
  lemma RunSpoken<J>(d: Decoders<J>, run: seq<ABlock<J>>, s: Input<J>)
    requires SendableBlocks(d, run)
    ensures Feed(d, s, A.Flush(Parts(run), HasImage(run)))
      == Ok(if Silent(run) then s else s.Flush().Say("user", Speech(d, run)))
  {
    SilentParts(run);
    if !Silent(run) {
      var m := SpeechMessage(run);
      SpeechMessageBlocks(d, run);
      FeedOne(d, s, m);
      SpokenStep(d, s, m, Speech(d, run));
    }
  }

  // ---------------------------------------------------------------- whole turns

  lemma PartsSendable<J>(d: Decoders<J>, blocks: seq<ABlock<J>>, a: seq<ABlock<J>>, b: seq<ABlock<J>>)
    requires blocks == a + b && SendableBlocks(d, blocks)
    ensures SendableBlocks(d, a) && SendableBlocks(d, b)
  {
    forall i | 0 <= i < |a| ensures SendableBlock(d, a[i]) {
      assert blocks[i] == a[i];
    }
    forall i | 0 <= i < |b| ensures SendableBlock(d, b[i]) {
      assert blocks[|a| + i] == b[i];
    }
  }

  /** A run goes out before whatever `more` follows the turn. */
  lemma RunFed<J>(d: Decoders<J>, blocks: seq<ABlock<J>>, s: Input<J>, more: seq<OMessage<J>>)
    requires blocks != [] && !blocks[0].AToolResult? && SendableBlocks(d, blocks)
    ensures var run, rest := Run(blocks), AfterRun(blocks[1..]);
      SendableBlocks(d, rest)
      && Feed(d, s, A.UserFrom(blocks, [], false) + more)
        == Feed(d, if Silent(run) then s else s.Flush().Say("user", Speech(d, run)), A.UserFrom(rest, [], false) + more)
  {
    var run, rest := Run(blocks), AfterRun(blocks);
    RunFirst(blocks);
    RunIsPrefix(blocks);
    PartsSendable(d, blocks, run, rest);
    RunParts(blocks, [], false);
    WithNothing(Parts(run));
    RunSpoken(d, run, s);
    Associative(A.Flush<J>(Parts(run), HasImage(run)), A.UserFrom(rest, [], false), more);
    FeedAppend(d, s, A.Flush(Parts(run), HasImage(run)), A.UserFrom(rest, [], false) + more);
  }

  /** A tool message adds its result to those held. */
  lemma ResultHeld<J>(d: Decoders<J>, blocks: seq<ABlock<J>>, s: Input<J>, more: seq<OMessage<J>>)
    requires blocks != [] && blocks[0].AToolResult? && SendableBlock(d, blocks[0])
    ensures Feed(d, s, A.UserFrom(blocks, [], false) + more)
      == Feed(d, s.(pending := s.pending + [ResultOf(blocks[0])]), A.UserFrom(blocks[1..], [], false) + more)
  {
    var m, rest := A.ResultMessage(blocks[0]), A.UserFrom(blocks[1..], [], false);
    ResultFirst(blocks);
    Associative([m], rest, more);
    ResultBlockOf(blocks[0]);
    ToolStep(d, s, m, ResultOf(blocks[0]));
    FeedOne(d, s, m);
    FeedAppend(d, s, [m], rest + more);
  }

  lemma ResultFirst<J>(blocks: seq<ABlock<J>>)
    requires blocks != [] && blocks[0].AToolResult?
    ensures A.UserFrom(blocks, [], false) == [A.ResultMessage(blocks[0])] + A.UserFrom(blocks[1..], [], false)
  {
    WithNothing([A.ResultMessage(blocks[0])]);
  }

  lemma NothingMore<J>(s: Input<J>)
    ensures s.Flush().messages == s.messages + Message("user", s.pending)
  {
    WithNothing(s.messages);
  }

  lemma SpokenMessages<J>(s: Input<J>, role: string, content: seq<BBlock<J>>, more: seq<BMessage<J>>)
    ensures var t := s.Flush().Say(role, content);
      t.system == s.system && t.pending == []
      && t.messages + more == s.messages + (Message("user", s.pending) + Message(role, content) + more)
  {
    NothingMore(s);
    WithNothing(s.Flush().messages);
    Associative(s.messages, Message("user", s.pending), Message(role, content));
    Associative(s.messages, Message("user", s.pending) + Message(role, content), more);
  }

  /** A message of plain text lets the results go, even when it says nothing itself. */
  lemma TextTurn<J>(d: Decoders<J>, m: OMessage<J>, text: string, s: Input<J>)
    requires m == OMessage(m.role, OString(text), [], "", false) && (m.role == "user" || m.role == "assistant")
    ensures Feed(d, s, [m]) == Ok(s.Flush().Say(m.role, PlainText(text)))
  {
    FeedOne(d, s, m);
    assert CallBlocks(d, m.toolCalls) == Ok([]);
    assert PlainText<J>(text) + [] == PlainText(text);
    SpokenStep(d, s, m, PlainText(text));
  }

  lemma CallBecomesUse<J(!new)>(d: Decoders<J>, b: ABlock<J>)
    requires Lawful(d.codec) && b.AToolUse? && b.name != "" && SendableUse(d, b)
    ensures A.AssistantCall(d.codec, b).Object?
    ensures CallBlock(d, A.AssistantCall(d.codec, b).value).Ok?
    ensures UseOf(d.codec, b) == [CallBlock(d, A.AssistantCall(d.codec, b).value).value]
  {
    var call := A.AssistantCall(d.codec, b).value;
    ArgumentsRead(d.codec, b.input);
    assert !Blank(call.id);
  }

  /** What is printed as arguments is read as the input. */
  lemma ArgumentsRead<J(!new)>(codec: Codec<J>, input: ToolInput<J>)
    requires Lawful(codec)
    ensures !Blank(A.ToolArguments(codec, input))
    ensures codec.decode(A.ToolArguments(codec, input)) == InputOf(codec, input)
  {
    var braces := "{}";
    assert braces[0] == '{' && braces[0] in braces;
    if input.ObjectInput? {
      assert codec.decode(codec.encode(input.value)) == Some(input.value);
    }
  }

  lemma CallBlocksSnoc<J>(d: Decoders<J>, calls: seq<Entry<OCall<J>>>, call: OCall<J>)
    requires CallBlocks(d, calls).Ok? && CallBlock(d, call).Ok?
    ensures CallBlocks(d, calls + [Object(call)]) == Ok(CallBlocks(d, calls).value + [CallBlock(d, call).value])
  {
    WithoutLast(calls, Object(call));
  }

  lemma {:induction false} CallsBecomeUses<J(!new)>(d: Decoders<J>, blocks: seq<ABlock<J>>)
    requires Lawful(d.codec)
    requires forall i :: 0 <= i < |blocks| ==> SendableUse(d, blocks[i])
    ensures CallBlocks(d, A.AssistantCalls(d.codec, blocks)) == Ok(ToolUses(d, blocks))
    decreases |blocks|
  {
    if blocks != [] {
      var front, last := blocks[..|blocks| - 1], blocks[|blocks| - 1];
      CallsBecomeUses(d, front);
      if last.AToolUse? && last.name != "" {
        CallBecomesUse(d, last);
        CallBlocksSnoc(d, A.AssistantCalls(d.codec, front), A.AssistantCall(d.codec, last).value);
      } else {
        WithNothing(A.AssistantCalls(d.codec, front));
        WithNothing(ToolUses(d, front));
      }
    }
  }

  lemma AssistantTurn<J(!new)>(d: Decoders<J>, blocks: seq<ABlock<J>>, s: Input<J>)
    requires Lawful(d.codec)
    requires forall i :: 0 <= i < |blocks| ==> SendableUse(d, blocks[i])
    ensures Feed(d, s, [A.Assistant(d.codec, ABlocks(blocks))])
      == Ok(s.Flush().Say("assistant", PlainText(Lines(Texts(blocks))) + ToolUses(d, blocks)))
  {
    var m := A.Assistant(d.codec, ABlocks(blocks));
    CallsBecomeUses(d, blocks);
    AssistantText(blocks);
    FeedOne(d, s, m);
    SpokenStep(d, s, m, PlainText(Lines(Texts(blocks))) + ToolUses(d, blocks));
  }

  /** The loop over a user turn writes nothing exactly when the turn has nothing to write. */
  lemma NothingWritten<J>(blocks: seq<ABlock<J>>)
    ensures A.UserFrom(blocks, [], false) == [] <==> Silent(blocks) && AfterRun(blocks) == []
  {
    RunIsPrefix(blocks);
    RunParts(blocks, [], false);
    WithNothing(Parts(Run(blocks)));
    SilentParts(Run(blocks));
    if AfterRun(blocks) == [] {
      WithNothing(Run(blocks));
    } else {
      ResultFirst(AfterRun(blocks));
    }
  }

  lemma PlainTurn<J(!new)>(d: Decoders<J>, t: AMessage<J>, s: Input<J>)
    requires Lawful(d.codec) && Sendable(d, t) && !Piecewise(t)
    ensures Feed(d, s, A.Turn(d.codec, t)) == Ok(s.Flush().Say(SpeakerOf(t), TurnContent(d, t)))
  {
    match t.content
    case AString(text) => TextTurn(d, A.Turn(d.codec, t)[0], text, s);
    case ANone => TextTurn(d, A.Turn(d.codec, t)[0], "", s);
    case ABlocks(blocks) =>
      if t.role == "assistant" {
        AssistantTurn(d, blocks, s);
      } else {
        NothingWritten(blocks);
        TextTurn(d, UserMessage(OString("")), "", s);
      }
  }

  // ---------------------------------------------------------------- system prompts

  predicate SendableSystem<J>(system: AContent<J>) {
    system.ABlocks? ==> forall i :: 0 <= i < |system.blocks| ==> !RealImage(system.blocks[i])
  }

  function SystemTexts<J>(system: AContent<J>): seq<string> {
    match system
    case AString(t) => if Blank(t) then [] else [t]
    case ANone => []
    case ABlocks(blocks) =>
      var text := Lines(Texts(blocks));
      if Blank(text) then [] else [text]
  }

  lemma {:induction false} SystemPartsText<J>(blocks: seq<ABlock<J>>)
    requires forall i :: 0 <= i < |blocks| ==> !RealImage(blocks[i])
    ensures OnlyTexts(A.SystemParts(blocks)) == Ok(A.AssistantTexts(blocks))
    decreases |blocks|
  {
    if blocks != [] {
      var front, last := blocks[..|blocks| - 1], blocks[|blocks| - 1];
      SystemPartsText(front);
      if last.AText? {
        var parts := A.SystemParts(front);
        assert A.SystemParts(blocks) == parts + [OTextPart(last.text)];
        assert (parts + [OTextPart(last.text)])[..|parts|] == parts;
      } else {
        assert A.SystemParts(blocks) == A.SystemParts(front);
        assert A.AssistantTexts(blocks) == A.AssistantTexts(front);
      }
    }
  }

  lemma SystemCollected<J>(d: Decoders<J>, system: AContent<J>)
    requires SendableSystem(system)
    ensures Feed(d, Input([], [], []), A.SystemMessage(system)) == Ok(Input([], SystemTexts(system), []))
  {
    if system.ABlocks? {
      SystemPartsText(system.blocks);
      AssistantText(system.blocks);
    }
    var ms := A.SystemMessage(system);
    if ms == [] {
      assert Join([], "\n") == "";
    } else {
      FeedOne(d, Input([], [], []), ms[0]);
      SystemStep(d, Input([], [], []), ms[0], MessageText(ms[0].content).value);
      WithNothing(SystemTexts(system));
    }
  }

  lemma SystemStep<J>(d: Decoders<J>, s: Input<J>, m: OMessage<J>, text: string)
    requires m.role == "system" && MessageText(m.content) == Ok(text)
    ensures s.Step(d, m) == Ok(if Blank(text) then s else s.(system := s.system + [text]))
  {
    SystemRole();
  }

  // ---------------------------------------------------------------- conversations

  lemma {:induction false} TurnsFirst<J>(codec: Codec<J>, ts: seq<AMessage<J>>)
    requires ts != []
    ensures A.Turns(codec, ts) == A.Turn(codec, ts[0]) + A.Turns(codec, ts[1..])
    decreases |ts|
  {
    var front, last := ts[..|ts| - 1], ts[|ts| - 1];
    if front == [] {
      WithNothing(A.Turn(codec, last));
    } else {
      TurnsFirst(codec, front);
      assert front[1..] == ts[1..][..|ts| - 2] && ts[1..][|ts| - 2] == last;
      Associative(A.Turn(codec, ts[0]), A.Turns(codec, front[1..]), A.Turn(codec, last));
    }
  }

  lemma {:induction false} ConversationFed<J(!new)>(d: Decoders<J>, ts: seq<AMessage<J>>, s: Input<J>)
    requires Lawful(d.codec) && forall i :: 0 <= i < |ts| ==> Sendable(d, ts[i])
    ensures var r := Feed(d, s, A.Turns(d.codec, ts));
      r.Ok? && r.value.system == s.system
      && r.value.Flush().messages == s.messages + ConversationMessages(d, ts, s.pending)
    decreases |ts|, 0
  {
    if ts == [] {
      NothingMore(s);
    } else {
      var t, rest := ts[0], ts[1..];
      TurnsFirst(d.codec, ts);
      if Piecewise(t) {
        NothingWritten(t.content.blocks);
        UserFed(d, t.content.blocks, s, rest);
      } else {
        PlainTurn(d, t, s);
        FeedAppend(d, s, A.Turn(d.codec, t), A.Turns(d.codec, rest));
        ConversationFed(d, rest, s.Flush().Say(SpeakerOf(t), TurnContent(d, t)));
        SpokenMessages(s, SpeakerOf(t), TurnContent(d, t), ConversationMessages(d, rest, []));
      }
    }
  }

  lemma {:induction false} UserFed<J(!new)>(d: Decoders<J>, blocks: seq<ABlock<J>>, s: Input<J>, rest: seq<AMessage<J>>)
    requires Lawful(d.codec) && SendableBlocks(d, blocks) && forall i :: 0 <= i < |rest| ==> Sendable(d, rest[i])
    ensures var r := Feed(d, s, A.UserFrom(blocks, [], false) + A.Turns(d.codec, rest));
      r.Ok? && r.value.system == s.system
      && r.value.Flush().messages == s.messages + UserMessages(d, blocks, s.pending, rest)
    decreases |rest|, 1 + |blocks|
  {
    var more := A.Turns(d.codec, rest);
    if blocks == [] {
      WithNothing(more);
      ConversationFed(d, rest, s);
    } else if blocks[0].AToolResult? {
      ResultHeld(d, blocks, s, more);
      UserFed(d, blocks[1..], s.(pending := s.pending + [ResultOf(blocks[0])]), rest);
    } else {
      var run, after := Run(blocks), AfterRun(blocks[1..]);
      RunFed(d, blocks, s, more);
      if Silent(run) {
        UserFed(d, after, s, rest);
      } else {
        UserFed(d, after, s.Flush().Say("user", Speech(d, run)), rest);
        SpokenMessages(s, "user", Speech(d, run), UserMessages(d, after, [], rest));
      }
    }
  }

  lemma ConversationCollected<J(!new)>(d: Decoders<J>, system: AContent<J>, ts: seq<AMessage<J>>)
    requires Lawful(d.codec) && SendableSystem(system)
    requires forall i :: 0 <= i < |ts| ==> Sendable(d, ts[i])
    ensures var r := Collect(d, C.Wrap(A.SystemMessage(system) + A.Turns(d.codec, ts)));
      r.Ok? && r.value.system == SystemTexts(system)
      && r.value.Flush().messages == ConversationMessages(d, ts, [])
  {
    var head, body := A.SystemMessage(system), A.Turns(d.codec, ts);
    SystemCollected(d, system);
    ConversationFed(d, ts, Input([], SystemTexts(system), []));
    FeedAppend(d, Input([], [], []), head, body);
    CollectFeeds(d, head + body);
    WithNothing(ConversationMessages(d, ts, []));
  }

  /** MAIN RESULT. Both translations together send exactly the messages of the conversation, in
      order: an assistant turn is one message, and results wait for what is said next, in the same
      turn or a later one, or for the end. */
  lemma BedrockSeesTurns<J(!new)>(d: Decoders<J>, system: AContent<J>, ts: seq<AMessage<J>>)
    requires Lawful(d.codec) && SendableSystem(system) && ts != []
    requires forall i :: 0 <= i < |ts| ==> Sendable(d, ts[i])
    ensures A.Translate(d.codec, system, C.Wrap(ts)).Ok?
    ensures Translate(d, C.Wrap(A.Translate(d.codec, system, C.Wrap(ts)).value))
      == if ConversationMessages(d, ts, []) == []
         then Err("at least one non-empty user or assistant message is required")
         else Ok((SystemTexts(system), ConversationMessages(d, ts, [])))
  {
    C.ForwardSucceeds(d.codec, system, ts);
    ConversationCollected(d, system, ts);
    SomethingSaid(d.codec, ts);
  }

  /** The messages of the request Bedrock is sent, if there is one. */
  function Request<J>(d: Decoders<J>, system: AContent<J>, ts: seq<AMessage<J>>): seq<BMessage<J>> {
    match A.Translate(d.codec, system, C.Wrap(ts))
    case Err(_) => []
    case Ok(ms) =>
      match Translate(d, C.Wrap(ms))
      case Err(_) => []
      case Ok(r) => r.1
  }

  lemma RequestIs<J(!new)>(d: Decoders<J>, system: AContent<J>, ts: seq<AMessage<J>>)
    requires Lawful(d.codec) && SendableSystem(system)
    requires forall i :: 0 <= i < |ts| ==> Sendable(d, ts[i])
    ensures Request(d, system, ts) == ConversationMessages(d, ts, [])
  {
    if ts != [] {
      BedrockSeesTurns(d, system, ts);
    }
  }

  lemma SomethingSaid<J>(codec: Codec<J>, ts: seq<AMessage<J>>)
    requires ts != []
    ensures A.Turns(codec, ts) != []
  {
    assert A.Turn(codec, ts[|ts| - 1]) != [];
  }

  // ---------------------------------------------------------------- where a request can be cut

  /** The turn lets go of the results held before it: it does not begin with a result. */
  predicate Interrupts<J>(t: AMessage<J>) {
    Piecewise(t) ==> !Silent(Run(t.content.blocks))
  }

  /** Nothing follows that could take up the results held. */
  predicate Released<J>(ts: seq<AMessage<J>>) {
    ts != [] ==> Interrupts(ts[0])
  }

  lemma LetsGo<J>(d: Decoders<J>, ts: seq<AMessage<J>>, held: seq<BBlock<J>>)
    requires Released(ts)
    ensures ConversationMessages(d, ts, held) == Message("user", held) + ConversationMessages(d, ts, [])
  {
    WithNothing(Message<J>("user", held));
    if ts != [] {
      if Piecewise(ts[0]) {
        var blocks := ts[0].content.blocks;
        var speech := Message("user", Speech(d, Run(blocks)));
        var more := UserMessages(d, AfterRun(blocks[1..]), [], ts[1..]);
        WithNothing(speech);
        Associative(Message("user", held), speech, more);
      } else {
        var said, more := Message(SpeakerOf(ts[0]), TurnContent(d, ts[0])), ConversationMessages(d, ts[1..], []);
        WithNothing(said);
        Associative(Message("user", held), said, more);
      }
    }
  }

  /** Before such a turn the request can be cut in two. */
  lemma {:induction false} Cut<J>(d: Decoders<J>, a: seq<AMessage<J>>, b: seq<AMessage<J>>, held: seq<BBlock<J>>)
    requires Released(b)
    ensures ConversationMessages(d, a + b, held) == ConversationMessages(d, a, held) + ConversationMessages(d, b, [])
    decreases |a|, 0
  {
    if a == [] {
      WithNothing(b);
      LetsGo(d, b, held);
    } else {
      FirstOfJoin(a, b);
      if Piecewise(a[0]) {
        UserCut(d, a[0].content.blocks, held, a[1..], b);
      } else {
        var before := Message("user", held) + Message(SpeakerOf(a[0]), TurnContent(d, a[0]));
        Cut(d, a[1..], b, []);
        Associative(before, ConversationMessages(d, a[1..], []), ConversationMessages(d, b, []));
      }
    }
  }

  lemma {:induction false} UserCut<J>(d: Decoders<J>, blocks: seq<ABlock<J>>, held: seq<BBlock<J>>,
                                      rest: seq<AMessage<J>>, b: seq<AMessage<J>>)
    requires Released(b)
    ensures UserMessages(d, blocks, held, rest + b)
      == UserMessages(d, blocks, held, rest) + ConversationMessages(d, b, [])
    decreases |rest|, 1 + |blocks|
  {
    if blocks == [] {
      Cut(d, rest, b, held);
    } else if blocks[0].AToolResult? {
      UserCut(d, blocks[1..], held + [ResultOf(blocks[0])], rest, b);
    } else {
      var run, more := Run(blocks), AfterRun(blocks[1..]);
      if Silent(run) {
        UserCut(d, more, held, rest, b);
      } else {
        UserCut(d, more, [], rest, b);
        Associative(Message("user", held) + Message("user", Speech(d, run)),
          UserMessages(d, more, [], rest), ConversationMessages(d, b, []));
      }
    }
  }

  // ---------------------------------------------------------------- pairing

  /** Once something was spoken no result follows. */
  predicate Unbroken<J>(blocks: seq<ABlock<J>>) {
    forall i, k :: 0 <= i < k < |blocks| && Speaks(blocks[i]) ==> !blocks[k].AToolResult?
  }

  /** Nothing is said before the first result, no text or image stands between two, and nothing adds
      to them after the last. */
  predicate Gathered<J>(d: Decoders<J>, blocks: seq<ABlock<J>>, rest: seq<AMessage<J>>) {
    Speech(d, Run(blocks)) == [] && Unbroken(AfterRun(blocks)) && Closed(AfterRun(blocks), rest)
  }

  lemma {:induction false} ResultsAfterRun<J>(blocks: seq<ABlock<J>>)
    ensures Results(blocks) == Results(AfterRun(blocks))
    ensures Results(blocks) == [] <==> AfterRun(blocks) == []
    decreases |blocks|
  {
    if blocks != [] && !blocks[0].AToolResult? {
      ResultsAfterRun(blocks[1..]);
      WithNothing(Results(blocks[1..]));
    }
  }

  lemma SilentStart<J>(a: seq<ABlock<J>>, b: seq<ABlock<J>>)
    requires Silent(a)
    ensures Unbroken(a + b) <==> Unbroken(b)
  {
    var blocks := a + b;
    if Unbroken(blocks) {
      forall i, k | 0 <= i < k < |b| && Speaks(b[i]) ensures !b[k].AToolResult? {
        assert blocks[|a| + i] == b[i] && blocks[|a| + k] == b[k];
      }
    } else {
      var i, k :| 0 <= i < k < |blocks| && Speaks(blocks[i]) && blocks[k].AToolResult?;
      assert i >= |a| && b[i - |a|] == blocks[i] && b[k - |a|] == blocks[k];
    }
  }

  lemma SpokenStart<J>(a: seq<ABlock<J>>, b: seq<ABlock<J>>)
    requires !Silent(a) && forall i :: 0 <= i < |a| ==> !a[i].AToolResult?
    requires b == [] || b[0].AToolResult?
    ensures Unbroken(a + b) <==> b == []
  {
    if b != [] {
      var i :| 0 <= i < |a| && Speaks(a[i]);
      assert Speaks((a + b)[i]) && (a + b)[|a|].AToolResult?;
    }
  }

  /** The first message that goes out has at least the results held. */
  lemma {:induction false} HeldGoFirst<J>(d: Decoders<J>, ts: seq<AMessage<J>>, held: seq<BBlock<J>>)
    requires held != []
    ensures var ms := ConversationMessages(d, ts, held);
      ms != [] && ms[0].role == "user" && held <= ms[0].content
    decreases |ts|, 0
  {
    if ts != [] && Piecewise(ts[0]) {
      HeldGoFirstHere(d, ts[0].content.blocks, held, ts[1..]);
    }
  }

  lemma {:induction false} HeldGoFirstHere<J>(
      d: Decoders<J>, blocks: seq<ABlock<J>>, held: seq<BBlock<J>>, rest: seq<AMessage<J>>)
    requires held != []
    ensures var ms := UserMessages(d, blocks, held, rest);
      ms != [] && ms[0].role == "user" && held <= ms[0].content
    decreases |rest|, 1 + |blocks|
  {
    if blocks == [] {
      HeldGoFirst(d, rest, held);
    } else if blocks[0].AToolResult? {
      HeldGoFirstHere(d, blocks[1..], held + [ResultOf(blocks[0])], rest);
    } else if Silent(Run(blocks)) {
      HeldGoFirstHere(d, AfterRun(blocks[1..]), held, rest);
    }
  }

  /** A turn that begins with a result adds it to those held. */
  lemma MoreHeld<J>(d: Decoders<J>, ts: seq<AMessage<J>>, held: seq<BBlock<J>>)
    requires held != [] && !Released(ts)
    ensures var ms := ConversationMessages(d, ts, held);
      ms != [] && ms[0].role == "user" && |ms[0].content| > |held|
  {
    var blocks, rest := ts[0].content.blocks, ts[1..];
    RunIsPrefix(blocks);
    if Run(blocks) == [] {
      ResultIsHeld(d, blocks, held, rest);
    } else {
      RunFirst(blocks);
      assert AfterRun(blocks) != [];
      ResultIsHeld(d, AfterRun(blocks), held, rest);
    }
  }

  lemma ResultIsHeld<J>(d: Decoders<J>, blocks: seq<ABlock<J>>, held: seq<BBlock<J>>, rest: seq<AMessage<J>>)
    requires blocks != [] && blocks[0].AToolResult?
    ensures var ms := UserMessages(d, blocks, held, rest);
      ms != [] && ms[0].role == "user" && |ms[0].content| > |held|
  {
    HeldGoFirstHere(d, blocks[1..], held + [ResultOf(blocks[0])], rest);
  }

  lemma SilentJoin<J>(a: seq<ABlock<J>>, b: seq<ABlock<J>>)
    ensures Silent(a + b) <==> Silent(a) && Silent(b)
  {
    if Silent(a + b) {
      forall i | 0 <= i < |a| ensures !Speaks(a[i]) {
        assert (a + b)[i] == a[i];
      }
      forall i | 0 <= i < |b| ensures !Speaks(b[i]) {
        assert (a + b)[|a| + i] == b[i];
      }
    }
  }

  /** Nothing adds to the results: the turn speaks after them, or what follows lets them go. */
  predicate Closed<J>(blocks: seq<ABlock<J>>, rest: seq<AMessage<J>>) {
    !Silent(blocks) || Released(rest)
  }

  lemma {:induction false} FirstMessage<J>(
      d: Decoders<J>, blocks: seq<ABlock<J>>, held: seq<BBlock<J>>, rest: seq<AMessage<J>>)
    requires held != []
    ensures var ms := UserMessages(d, blocks, held, rest);
      ms != [] && ms[0].role == "user"
      && (ms[0].content == held + Results(blocks) <==> Unbroken(blocks) && Closed(blocks, rest))
    decreases |blocks|
  {
    if blocks == [] {
      WithNothing(held);
      if Released(rest) {
        LetsGo(d, rest, held);
      } else {
        MoreHeld(d, rest, held);
      }
    } else if blocks[0].AToolResult? {
      FirstResult(blocks);
      FirstMessage(d, blocks[1..], held + [ResultOf(blocks[0])], rest);
      Associative(held, [ResultOf(blocks[0])], Results(blocks[1..]));
    } else {
      var run, more := Run(blocks), AfterRun(blocks[1..]);
      RunFirst(blocks);
      RunIsPrefix(blocks);
      ResultsAfterRun(blocks);
      SilentJoin(run, more);
      if Silent(run) {
        FirstMessage(d, more, held, rest);
        SilentStart(run, more);
      } else {
        SpokenStart(run, more);
        NoLonger(held, Results(more));
        ResultsAfterRun(more);
      }
    }
  }

  lemma FirstResult<J>(blocks: seq<ABlock<J>>)
    requires blocks != [] && blocks[0].AToolResult?
    ensures Unbroken(blocks) <==> Unbroken(blocks[1..])
    ensures Silent(blocks) <==> Silent(blocks[1..])
  {
    assert blocks == [blocks[0]] + blocks[1..];
    SilentJoin([blocks[0]], blocks[1..]);
    SilentStart([blocks[0]], blocks[1..]);
  }

  lemma NoLonger<T>(a: seq<T>, b: seq<T>)
    ensures a == a + b <==> b == []
  {
    assert |a + b| == |a| + |b|;
  }

  lemma {:induction false} IllustratedStart<J>(d: Decoders<J>, blocks: seq<ABlock<J>>, texts: seq<string>)
    ensures var r := Illustrated(d, blocks, texts); r == [] || !r[0].BToolResult?
    decreases |blocks|
  {
    if blocks != [] {
      match blocks[0]
      case AText(t) => IllustratedStart(d, blocks[1..], if t == "" then texts else texts + [t]);
      case AImage(_, _) =>
        if RealImage(blocks[0]) && d.image(DataUrl(blocks[0].mediaType, blocks[0].data)).Some? {
        } else {
          IllustratedStart(d, blocks[1..], texts);
        }
      case _ => IllustratedStart(d, blocks[1..], texts);
    }
  }

  lemma {:induction false} SilentSpeech<J>(d: Decoders<J>, blocks: seq<ABlock<J>>)
    requires Silent(blocks)
    ensures !HasImage(blocks) && Texts(blocks) == [] && Speech(d, blocks) == []
    decreases |blocks|
  {
    if blocks != [] {
      assert !Speaks(blocks[0]);
      SilentSpeech(d, blocks[1..]);
    }
  }

  lemma StartOfTurn<J>(d: Decoders<J>, blocks: seq<ABlock<J>>, rest: seq<AMessage<J>>)
    requires blocks != [] && blocks[0].AToolResult?
    ensures var ms := UserMessages(d, blocks, [], rest);
      ms != [] && (ms[0] == BMessage("user", Results(blocks)) <==> Unbroken(blocks) && Closed(blocks, rest))
  {
    var b := [ResultOf(blocks[0])];
    WithNothing(b);
    FirstResult(blocks);
    FirstMessage(d, blocks[1..], b, rest);
  }

  lemma TurnStartsWithResults<J>(d: Decoders<J>, blocks: seq<ABlock<J>>, rest: seq<AMessage<J>>)
    requires Results(blocks) != []
    ensures var ms := UserMessages(d, blocks, [], rest);
      ms != [] && (ms[0] == BMessage("user", Results(blocks)) <==> Gathered(d, blocks, rest))
  {
    var run, more := Run(blocks), AfterRun(blocks);
    ResultsAfterRun(blocks);
    StartOfTurn(d, more, rest);
    if run == [] {
      SilentSpeech(d, run);
    } else {
      RunFirst(blocks);
      if Silent(run) {
        SilentSpeech(d, run);
      } else {
        SpeechStart(d, blocks, run);
      }
    }
  }

  lemma SpeechStart<J>(d: Decoders<J>, blocks: seq<ABlock<J>>, run: seq<ABlock<J>>)
    requires Results(blocks) != []
    ensures Speech(d, run) != Results(blocks)
  {
    IllustratedStart(d, run, []);
    ResultsAreResults(blocks);
  }

  lemma {:induction false} ResultsAreResults<J>(blocks: seq<ABlock<J>>)
    ensures Results(blocks) == [] || Results(blocks)[0].BToolResult?
    decreases |blocks|
  {
    if blocks != [] {
      ResultsAreResults(blocks[1..]);
      if blocks[0].AToolResult? {
        FirstOfJoin([ResultOf(blocks[0])], Results(blocks[1..]));
      } else {
        WithNothing(Results(blocks[1..]));
      }
    }
  }

  /** MAIN RESULT. Wherever an assistant turn with tool uses is followed by a user turn with results,
      the message with those uses is immediately followed by a user message with exactly those
      results if and only if the user turn says nothing before its first result and nothing between
      two, and speaks after the last unless what follows is the end or a turn that does not begin
      with a result. The message with the uses is the first after those of the turns before it. */
  lemma ToolUsesMeetTheirResults<J(!new)>(d: Decoders<J>, system: AContent<J>, ts: seq<AMessage<J>>, k: nat)
    requires Lawful(d.codec) && SendableSystem(system) && k + 1 < |ts|
    requires forall i :: 0 <= i < |ts| ==> Sendable(d, ts[i])
    requires ts[k].role == "assistant" && ts[k].content.ABlocks? && ToolUses(d, ts[k].content.blocks) != []
    requires ts[k + 1].role != "assistant" && ts[k + 1].content.ABlocks?
    requires Results(ts[k + 1].content.blocks) != []
    ensures var messages, before := Request(d, system, ts), Request(d, system, ts[..k]);
      var j := |before|;
      before <= messages && j + 1 < |messages|
      && messages[j] == BMessage("assistant", TurnContent(d, ts[k]))
      && (messages[j + 1] == BMessage("user", Results(ts[k + 1].content.blocks))
          <==> Gathered(d, ts[k + 1].content.blocks, ts[k + 2..]))
  {
    RequestsAre(d, system, ts, k);
    TwoIn(ts, k);
    PairAt(d, ts[..k], ts[k], ts[k + 1], ts[k + 2..]);
  }

  lemma RequestsAre<J(!new)>(d: Decoders<J>, system: AContent<J>, ts: seq<AMessage<J>>, k: nat)
    requires Lawful(d.codec) && SendableSystem(system) && k <= |ts|
    requires forall i :: 0 <= i < |ts| ==> Sendable(d, ts[i])
    ensures Request(d, system, ts) == ConversationMessages(d, ts, [])
    ensures Request(d, system, ts[..k]) == ConversationMessages(d, ts[..k], [])
  {
    RequestIs(d, system, ts);
    RequestIs(d, system, ts[..k]);
  }

  lemma PairAt<J>(d: Decoders<J>, before: seq<AMessage<J>>, x: AMessage<J>, y: AMessage<J>, rest: seq<AMessage<J>>)
    requires x.role == "assistant" && x.content.ABlocks? && ToolUses(d, x.content.blocks) != []
    requires y.role != "assistant" && y.content.ABlocks? && Results(y.content.blocks) != []
    ensures var messages := ConversationMessages(d, before + ([x] + [y] + rest), []);
      var first := ConversationMessages(d, before, []);
      var j := |first|;
      first <= messages && j + 1 < |messages|
      && messages[j] == BMessage("assistant", TurnContent(d, x))
      && (messages[j + 1] == BMessage("user", Results(y.content.blocks)) <==> Gathered(d, y.content.blocks, rest))
  {
    Cut(d, before, [x] + [y] + rest, []);
    PairAlone(d, x, y, rest);
    ResultsAfterRun(y.content.blocks);
    TurnStartsWithResults(d, y.content.blocks, rest);
    var ms := UserMessages(d, y.content.blocks, [], rest);
    Neighbours(ConversationMessages(d, before, []), BMessage("assistant", TurnContent(d, x)), ms, []);
    Associative(ConversationMessages(d, before, []), [BMessage("assistant", TurnContent(d, x))], ms);
    WithNothing(ConversationMessages(d, before + ([x] + [y] + rest), []));
  }

  lemma PairAlone<J>(d: Decoders<J>, x: AMessage<J>, y: AMessage<J>, rest: seq<AMessage<J>>)
    requires x.role == "assistant" && x.content.ABlocks? && ToolUses(d, x.content.blocks) != []
    requires y.role != "assistant" && y.content.ABlocks? && Results(y.content.blocks) != []
    ensures ConversationMessages(d, [x] + [y] + rest, [])
      == [BMessage("assistant", TurnContent(d, x))] + UserMessages(d, y.content.blocks, [], rest)
  {
    var ts := [x] + [y] + rest;
    assert ts[1..] == [y] + rest && ts[1..][1..] == rest;
    ResultsAfterRun(y.content.blocks);
    assert Piecewise(y);
    assert ConversationMessages(d, ts[1..], []) == UserMessages(d, y.content.blocks, [], rest);
    WithNothing([BMessage("assistant", TurnContent(d, x))]);
  }

  // ---------------------------------------------------------------- no result is lost

  function OnlyResults<J>(content: seq<BBlock<J>>): seq<BBlock<J>> {
    if content == [] then []
    else (if content[0].BToolResult? then [content[0]] else []) + OnlyResults(content[1..])
  }

  function ResultsIn<J>(ms: seq<BMessage<J>>): seq<BBlock<J>> {
    if ms == [] then [] else OnlyResults(ms[0].content) + ResultsIn(ms[1..])
  }

  function TurnResults<J>(t: AMessage<J>): seq<BBlock<J>> {
    if t.role != "assistant" && t.content.ABlocks? then Results(t.content.blocks) else []
  }

  /** The results of all user turns. */
  function ResultsOf<J>(ts: seq<AMessage<J>>): seq<BBlock<J>> {
    if ts == [] then [] else TurnResults(ts[0]) + ResultsOf(ts[1..])
  }

  lemma {:induction false} OnlyResultsAppend<J>(a: seq<BBlock<J>>, b: seq<BBlock<J>>)
    ensures OnlyResults(a + b) == OnlyResults(a) + OnlyResults(b)
    decreases |a|
  {
    if a == [] {
      WithNothing(b);
      WithNothing(OnlyResults(b));
    } else {
      FirstOfJoin(a, b);
      OnlyResultsAppend(a[1..], b);
      Associative(if a[0].BToolResult? then [a[0]] else [], OnlyResults(a[1..]), OnlyResults(b));
    }
  }

  lemma {:induction false} ResultsInAppend<J>(a: seq<BMessage<J>>, b: seq<BMessage<J>>)
    ensures ResultsIn(a + b) == ResultsIn(a) + ResultsIn(b)
    decreases |a|
  {
    if a == [] {
      WithNothing(b);
      WithNothing(ResultsIn(b));
    } else {
      FirstOfJoin(a, b);
      ResultsInAppend(a[1..], b);
      Associative(OnlyResults(a[0].content), ResultsIn(a[1..]), ResultsIn(b));
    }
  }

  lemma MessageResults<J>(role: string, content: seq<BBlock<J>>)
    ensures ResultsIn(Message(role, content)) == OnlyResults(content)
  {
    WithNothing(OnlyResults(content));
  }

  lemma {:induction false} IllustratedNoResults<J>(d: Decoders<J>, blocks: seq<ABlock<J>>, texts: seq<string>)
    ensures OnlyResults(Illustrated(d, blocks, texts)) == []
    decreases |blocks|
  {
    TextsNoResults<J>(texts);
    if blocks != [] {
      match blocks[0]
      case AText(t) => IllustratedNoResults(d, blocks[1..], if t == "" then texts else texts + [t]);
      case AImage(m, data) =>
        if RealImage(blocks[0]) && d.image(DataUrl(m, data)).Some? {
          var image := [BImage(d.image(DataUrl(m, data)).value)];
          IllustratedNoResults(d, blocks[1..], []);
          OnlyResultsAppend(Paragraph<J>(texts), image);
          OnlyResultsAppend(Paragraph<J>(texts) + image, Illustrated(d, blocks[1..], []));
        } else {
          IllustratedNoResults(d, blocks[1..], texts);
        }
      case _ => IllustratedNoResults(d, blocks[1..], texts);
    }
  }

  lemma TextsNoResults<J>(texts: seq<string>)
    ensures OnlyResults(Paragraph<J>(texts)) == []
  {
  }

  lemma {:induction false} UsesNoResults<J>(d: Decoders<J>, blocks: seq<ABlock<J>>)
    ensures OnlyResults(ToolUses(d, blocks)) == []
    decreases |blocks|
  {
    if blocks != [] {
      var front := blocks[..|blocks| - 1];
      UsesNoResults(d, front);
      OnlyResultsAppend(ToolUses(d, front), ToolUses(d, blocks)[|ToolUses(d, front)|..]);
      assert ToolUses(d, blocks) == ToolUses(d, front) + ToolUses(d, blocks)[|ToolUses(d, front)|..];
    }
  }

  lemma ContentNoResults<J>(d: Decoders<J>, t: AMessage<J>)
    ensures OnlyResults(TurnContent(d, t)) == []
  {
    if t.content.ABlocks? && t.role == "assistant" {
      var text := PlainText<J>(Lines(Texts(t.content.blocks)));
      UsesNoResults(d, t.content.blocks);
      OnlyResultsAppend(text, ToolUses(d, t.content.blocks));
    }
  }

  /** What is spoken comes after the results held, and adds none. */
  lemma SpokenResults<J>(role: string, held: seq<BBlock<J>>, content: seq<BBlock<J>>, more: seq<BMessage<J>>)
    requires OnlyResults(held) == held && OnlyResults(content) == []
    ensures ResultsIn(Message("user", held) + Message(role, content) + more) == held + ResultsIn(more)
  {
    MessageResults("user", held);
    MessageResults(role, content);
    WithNothing(held);
    ResultsInAppend(Message("user", held), Message(role, content));
    ResultsInAppend(Message("user", held) + Message(role, content), more);
  }

  lemma {:induction false} ConversationResults<J>(d: Decoders<J>, ts: seq<AMessage<J>>, held: seq<BBlock<J>>)
    requires OnlyResults(held) == held
    ensures ResultsIn(ConversationMessages(d, ts, held)) == held + ResultsOf(ts)
    decreases |ts|, 0
  {
    if ts == [] {
      MessageResults("user", held);
      WithNothing(held);
    } else {
      var t := ts[0];
      if Piecewise(t) {
        UserResults(d, t.content.blocks, held, ts[1..]);
        Associative(held, Results(t.content.blocks), ResultsOf(ts[1..]));
      } else {
        ContentNoResults(d, t);
        PlainHasNoResults(t);
        ConversationResults(d, ts[1..], []);
        SpokenResults(SpeakerOf(t), held, TurnContent(d, t), ConversationMessages(d, ts[1..], []));
        WithNothing(ResultsOf(ts[1..]));
      }
    }
  }

  lemma PlainHasNoResults<J>(t: AMessage<J>)
    requires !Piecewise(t)
    ensures TurnResults(t) == []
  {
    if t.role != "assistant" && t.content.ABlocks? {
      ResultsAfterRun(t.content.blocks);
    }
  }

  lemma {:induction false} UserResults<J>(
      d: Decoders<J>, blocks: seq<ABlock<J>>, held: seq<BBlock<J>>, rest: seq<AMessage<J>>)
    requires OnlyResults(held) == held
    ensures ResultsIn(UserMessages(d, blocks, held, rest)) == held + Results(blocks) + ResultsOf(rest)
    decreases |rest|, 1 + |blocks|
  {
    if blocks == [] {
      WithNothing(held);
      ConversationResults(d, rest, held);
    } else if blocks[0].AToolResult? {
      var b := ResultOf(blocks[0]);
      OnlyResultsAppend(held, [b]);
      UserResults(d, blocks[1..], held + [b], rest);
      Associative(held, [b], Results(blocks[1..]));
    } else {
      var run, more := Run(blocks), AfterRun(blocks[1..]);
      RunFirst(blocks);
      ResultsAfterRun(blocks);
      if Silent(run) {
        UserResults(d, more, held, rest);
      } else {
        IllustratedNoResults(d, run, []);
        UserResults(d, more, [], rest);
        SpokenResults("user", held, Speech(d, run), UserMessages(d, more, [], rest));
        WithNothing(Results(more));
        Associative(held, Results(more), ResultsOf(rest));
      }
    }
  }

  /** MAIN RESULT. However the turns are arranged, the request holds every tool result once, in
      order, and no other; where there is no request there are no results. */
  lemma NoResultLost<J(!new)>(d: Decoders<J>, system: AContent<J>, ts: seq<AMessage<J>>)
    requires Lawful(d.codec) && SendableSystem(system)
    requires forall i :: 0 <= i < |ts| ==> Sendable(d, ts[i])
    ensures ResultsIn(Request(d, system, ts)) == ResultsOf(ts)
  {
    RequestIs(d, system, ts);
    ConversationResults(d, ts, []);
    WithNothing(ResultsOf(ts));
  }
}
