/** `anthropicMessagesToOpenAI` and the converters it calls. */
module AnthropicToOpenAI {
  import opened Text
  import opened Messages

  /** The text a tool result is flattened to. */
  function ResultText(c: ResultContent): string {
    match c
    case NoResult => ""
    case StringResult(t) => t
    case PartsResult(texts) => Join(NonEmpty(texts), "\n")
    case JsonResult(encoded) => encoded
  }

  function ToolArguments<J>(codec: Codec<J>, input: ToolInput<J>): string {
    match input
    case NoInput => "{}"
    case TextInput(t) => if Blank(t) then "{}" else t
    case ObjectInput(v) => codec.encode(v)
  }

  /** The parts as one message: without an image they need no array. */
  function Flush<J>(parts: seq<OPart>, rich: bool): seq<OMessage<J>> {
    if parts == [] then []
    else [UserMessage(if rich then OParts(parts) else OString(Join(PartTexts(parts), "\n")))]
  }

  function ResultMessage<J>(b: ABlock<J>): OMessage<J>
    requires b.AToolResult?
  {
    if b.toolUseId == "" then UserMessage(OString(ResultText(b.content)))
    else OMessage("tool", OString(ResultText(b.content)), [], b.toolUseId, b.isError)
  }

  /** The messages for `blocks`, when `parts` were collected before them. */
  function UserFrom<J>(blocks: seq<ABlock<J>>, parts: seq<OPart>, rich: bool): seq<OMessage<J>> {
    if blocks == [] then Flush(parts, rich)
    else
      var rest := blocks[1..];
      match blocks[0]
      case AText(t) => UserFrom(rest, if t == "" then parts else parts + [OTextPart(t)], rich)
      case AImage(m, d) =>
        if m == "" || d == "" then UserFrom(rest, parts, rich)
        else UserFrom(rest, parts + [OImagePart(UrlObject(DataUrl(m, d)), "")], true)
      case AToolResult(_, _, _) =>
        Flush<J>(parts, rich) + [ResultMessage(blocks[0])] + UserFrom(rest, [], false)
      case _ => UserFrom(rest, parts, rich)
  }

  function User<J>(content: AContent<J>): seq<OMessage<J>> {
    match content
    case AString(t) => [UserMessage(OString(t))]
    case ANone => [UserMessage(OString(""))]
    case ABlocks(blocks) =>
      var out := UserFrom(blocks, [], false);
      if out == [] then [UserMessage(OString(""))] else out
  }

  method UserMessageToOpenAI<J>(content: AContent<J>) returns (out: seq<OMessage<J>>)
    ensures out == User(content)
  {
    if content.AString? {
      return [UserMessage(OString(content.text))];
    }
    if !content.ABlocks? {
      return [UserMessage(OString(""))];
    }
    var blocks := content.blocks;
    out := [];
    var parts: seq<OPart>, hasRichPart := [], false;
    for i := 0 to |blocks|
      invariant hasRichPart ==> parts != []
      invariant out + UserFrom(blocks[i..], parts, hasRichPart) == UserFrom(blocks, [], false)
    {
      assert blocks[i..][1..] == blocks[i + 1..];
      match blocks[i]
      case AText(text) =>
        if text != "" {
          parts := parts + [OTextPart(text)];
        }
      case AImage(mediaType, data) =>
        if mediaType == "" || data == "" {
          continue;
        }
        hasRichPart := true;
        parts := parts + [OImagePart(UrlObject(DataUrl(mediaType, data)), "")];
      case AToolResult(_, _, _) =>
        ghost var before := out;
        ghost var flushed := Flush<J>(parts, hasRichPart) + [ResultMessage(blocks[i])];
        if parts != [] {
          var value := if hasRichPart then OParts(parts) else OString(Join(PartTexts(parts), "\n"));
          out := out + [UserMessage(value)];
          parts, hasRichPart := [], false;
        }
        out := out + [ResultMessage(blocks[i])];
        assert out == before + flushed;
      case _ =>
    }
    assert blocks[|blocks|..] == [];
    out := out + Flush(parts, hasRichPart);
    if out == [] {
      out := [UserMessage(OString(""))];
    }
  }

  function AssistantTexts<J>(blocks: seq<ABlock<J>>): seq<string> {
    if blocks == [] then []
    else
      var last := blocks[|blocks| - 1];
      AssistantTexts(blocks[..|blocks| - 1])
      + if last.AText? && last.text != "" then [last.text] else []
  }

  function AssistantCall<J>(codec: Codec<J>, b: ABlock<J>): Entry<OCall<J>>
    requires b.AToolUse?
  {
    Object(OCall(FallbackString(b.id, codec.newId), b.name, ArgumentsText(ToolArguments(codec, b.input))))
  }

  function AssistantCalls<J>(codec: Codec<J>, blocks: seq<ABlock<J>>): seq<Entry<OCall<J>>> {
    if blocks == [] then []
    else
      var last := blocks[|blocks| - 1];
      AssistantCalls(codec, blocks[..|blocks| - 1])
      + if last.AToolUse? && last.name != "" then [AssistantCall(codec, last)] else []
  }

  function Assistant<J>(codec: Codec<J>, content: AContent<J>): OMessage<J> {
    match content
    case AString(t) => OMessage("assistant", OString(t), [], "", false)
    case ANone => OMessage("assistant", OString(""), [], "", false)
    case ABlocks(blocks) =>
      OMessage("assistant", OString(Join(AssistantTexts(blocks), "\n")), AssistantCalls(codec, blocks), "", false)
  }

  method AssistantMessageToOpenAI<J>(codec: Codec<J>, content: AContent<J>) returns (out: OMessage<J>)
    ensures out == Assistant(codec, content)
  {
    if content.AString? {
      return OMessage("assistant", OString(content.text), [], "", false);
    }
    if !content.ABlocks? {
      return OMessage("assistant", OString(""), [], "", false);
    }
    var blocks := content.blocks;
    var textParts: seq<string>, toolCalls: seq<Entry<OCall<J>>> := [], [];
    for i := 0 to |blocks|
      invariant textParts == AssistantTexts(blocks[..i])
      invariant toolCalls == AssistantCalls(codec, blocks[..i])
    {
      assert blocks[..i + 1][..i] == blocks[..i];
      match blocks[i]
      case AText(text) =>
        if text != "" {
          textParts := textParts + [text];
        }
      case AToolUse(_, name, _) =>
        if name != "" {
          toolCalls := toolCalls + [AssistantCall(codec, blocks[i])];
        }
      case _ =>
    }
    assert blocks[..|blocks|] == blocks;
    out := OMessage("assistant", OString(Join(textParts, "\n")), toolCalls, "", false);
  }

  /** `anthropicContentToOpenAI` for the system prompt; `None` when there is nothing to say. */
  function SystemParts<J>(blocks: seq<ABlock<J>>): seq<OPart> {
    if blocks == [] then []
    else
      var last := blocks[|blocks| - 1];
      SystemParts(blocks[..|blocks| - 1])
      + match last
        case AText(t) => [OTextPart(t)]
        case AImage(m, d) => if m == "" || d == "" then [] else [OImagePart(UrlObject(DataUrl(m, d)), "")]
        case _ => []
  }

  function SystemMessage<J>(system: AContent<J>): seq<OMessage<J>> {
    match system
    case AString(t) => if Blank(t) then [] else [OMessage("system", OString(t), [], "", false)]
    case ABlocks(blocks) =>
      if SystemParts(blocks) == [] then []
      else [OMessage("system", OParts(SystemParts(blocks)), [], "", false)]
    case ANone => []
  }

  /** The messages of one turn. */
  function Turn<J>(codec: Codec<J>, m: AMessage<J>): seq<OMessage<J>> {
    if m.role == "assistant" then [Assistant(codec, m.content)] else User(m.content)
  }

  function Turns<J>(codec: Codec<J>, ms: seq<AMessage<J>>): seq<OMessage<J>> {
    if ms == [] then [] else Turns(codec, ms[..|ms| - 1]) + Turn(codec, ms[|ms| - 1])
  }

  function Values<M>(es: seq<Entry<M>>): seq<M>
    requires forall e :: e in es ==> e.Object?
  {
    seq(|es|, i requires 0 <= i < |es| => es[i].value)
  }

  predicate AllObjects<M>(es: seq<Entry<M>>) {
    forall i :: 0 <= i < |es| ==> es[i].Object?
  }

  /** The whole translation: an empty list or an entry that is no object is an error. */
  function Translate<J>(codec: Codec<J>, system: AContent<J>, entries: seq<Entry<AMessage<J>>>):
      Result<seq<OMessage<J>>>
  {
    if entries == [] then Err("messages must be a non-empty array")
    else if !AllObjects(entries) then Err("messages entries must be objects")
    else Ok(SystemMessage(system) + Turns(codec, Values(entries)))
  }

  method MessagesToOpenAI<J>(codec: Codec<J>, system: AContent<J>, entries: seq<Entry<AMessage<J>>>)
    returns (r: Result<seq<OMessage<J>>>)
    ensures r == Translate(codec, system, entries)
  {
    var messages := SystemMessage(system);
    if entries == [] {
      return Err("messages must be a non-empty array");
    }
    ghost var head := messages;
    for i := 0 to |entries|
      invariant AllObjects(entries[..i])
      invariant messages == head + Turns(codec, Values(entries[..i]))
    {
      if !entries[i].Object? {
        return Err("messages entries must be objects");
      }
      var m := entries[i].value;
      ValuesSnoc(entries, i);
      TurnsSnoc(codec, Values(entries[..i]), m);
      Associative(head, Turns(codec, Values(entries[..i])), Turn(codec, m));
      if m.role == "assistant" {
        var converted := AssistantMessageToOpenAI(codec, m.content);
        messages := messages + [converted];
      } else {
        var converted := UserMessageToOpenAI(m.content);
        messages := messages + converted;
      }
    }
    assert entries[..|entries|] == entries;
    r := Ok(messages);
  }

  lemma ValuesSnoc<M>(es: seq<Entry<M>>, i: nat)
    requires i < |es| && AllObjects(es[..i]) && es[i].Object?
    ensures AllObjects(es[..i + 1]) && Values(es[..i + 1]) == Values(es[..i]) + [es[i].value]
  {
  }

  lemma TurnsSnoc<J>(codec: Codec<J>, ms: seq<AMessage<J>>, m: AMessage<J>)
    ensures Turns(codec, ms + [m]) == Turns(codec, ms) + Turn(codec, m)
  {
    assert (ms + [m])[..|ms|] == ms;
  }

  // ---------------------------------------------------------------- tool results

  /** The text of a tool result, whatever its content: the texts of parts on lines of their own. */
  function Reading(c: ResultContent): string {
    match c
    case NoResult => ""
    case StringResult(t) => t
    case PartsResult(texts) => Lines(texts)
    case JsonResult(encoded) => encoded
  }

  lemma ResultReads(c: ResultContent)
    ensures ResultText(c) == Reading(c)
  {
    if c.PartsResult? {
      JoinIsLines(c.texts);
    }
  }

  /** The same conversation with the content of every tool result written as one string. */
  function InPlain<J>(b: ABlock<J>): ABlock<J> {
    if b.AToolResult? then AToolResult(b.toolUseId, StringResult(Reading(b.content)), b.isError) else b
  }

  function BlocksInPlain<J>(blocks: seq<ABlock<J>>): seq<ABlock<J>> {
    seq(|blocks|, i requires 0 <= i < |blocks| => InPlain(blocks[i]))
  }

  function TurnInPlain<J>(m: AMessage<J>): AMessage<J> {
    if m.content.ABlocks? then AMessage(m.role, ABlocks(BlocksInPlain(m.content.blocks))) else m
  }

  function EntriesInPlain<J>(entries: seq<Entry<AMessage<J>>>): seq<Entry<AMessage<J>>> {
    seq(|entries|, i requires 0 <= i < |entries| =>
      if entries[i].Object? then Object(TurnInPlain(entries[i].value)) else entries[i])
  }

  lemma {:induction false} UserInPlain<J>(blocks: seq<ABlock<J>>, parts: seq<OPart>, rich: bool)
    ensures UserFrom(BlocksInPlain(blocks), parts, rich) == UserFrom(blocks, parts, rich)
    decreases |blocks|
  {
    if blocks != [] {
      var rest := blocks[1..];
      assert BlocksInPlain(blocks)[1..] == BlocksInPlain(rest);
      match blocks[0]
      case AText(t) => UserInPlain(rest, if t == "" then parts else parts + [OTextPart(t)], rich);
      case AImage(m, d) =>
        if m == "" || d == "" {
          UserInPlain(rest, parts, rich);
        } else {
          UserInPlain(rest, parts + [OImagePart(UrlObject(DataUrl(m, d)), "")], true);
        }
      case AToolResult(_, content, _) =>
        ResultReads(content);
        UserInPlain(rest, [], false);
      case _ => UserInPlain(rest, parts, rich);
    }
  }

  lemma {:induction false} AssistantInPlain<J>(codec: Codec<J>, blocks: seq<ABlock<J>>)
    ensures AssistantTexts(BlocksInPlain(blocks)) == AssistantTexts(blocks)
    ensures AssistantCalls(codec, BlocksInPlain(blocks)) == AssistantCalls(codec, blocks)
    decreases |blocks|
  {
    if blocks != [] {
      assert BlocksInPlain(blocks)[..|blocks| - 1] == BlocksInPlain(blocks[..|blocks| - 1]);
      AssistantInPlain(codec, blocks[..|blocks| - 1]);
    }
  }

  lemma SameTurn<J>(codec: Codec<J>, m: AMessage<J>)
    ensures Turn(codec, TurnInPlain(m)) == Turn(codec, m)
  {
    if m.content.ABlocks? {
      AssistantInPlain(codec, m.content.blocks);
      UserInPlain(m.content.blocks, [], false);
    }
  }

  lemma {:induction false} SameTurns<J>(codec: Codec<J>, entries: seq<Entry<AMessage<J>>>, n: nat)
    requires n <= |entries| && AllObjects(entries)
    ensures AllObjects(entries[..n]) && AllObjects(EntriesInPlain(entries)[..n])
    ensures Turns(codec, Values(EntriesInPlain(entries)[..n])) == Turns(codec, Values(entries[..n]))
    decreases n
  {
    if n > 0 {
      SameTurns(codec, entries, n - 1);
      ValuesSnoc(entries, n - 1);
      ValuesSnoc(EntriesInPlain(entries), n - 1);
      SameTurn(codec, entries[n - 1].value);
      TurnsSnoc(codec, Values(entries[..n - 1]), entries[n - 1].value);
      TurnsSnoc(codec, Values(EntriesInPlain(entries)[..n - 1]), TurnInPlain(entries[n - 1].value));
    }
  }

  /** MAIN RESULT. However the content of its tool results is given (as a string, in parts, as other JSON,
      or not at all), a conversation is translated like the one in which each is a string: the
      texts of parts each on a line, empty ones left out. */
  lemma ResultsReadAsText<J>(codec: Codec<J>, system: AContent<J>, entries: seq<Entry<AMessage<J>>>)
    ensures Translate(codec, system, EntriesInPlain(entries)) == Translate(codec, system, entries)
  {
    if AllObjects(entries) {
      SameTurns(codec, entries, |entries|);
      assert entries[..|entries|] == entries && EntriesInPlain(entries)[..|entries|] == EntriesInPlain(entries);
    } else {
      var i :| 0 <= i < |entries| && !entries[i].Object?;
      assert !EntriesInPlain(entries)[i].Object?;
    }
  }

  lemma {:induction false} UserFromJoin<J>(
      before: seq<ABlock<J>>, r: ABlock<J>, after: seq<ABlock<J>>, parts: seq<OPart>, rich: bool)
    requires r.AToolResult?
    ensures UserFrom(before + ([r] + after), parts, rich)
      == UserFrom(before, parts, rich) + [ResultMessage(r)] + UserFrom(after, [], false)
    decreases |before|
  {
    if before == [] {
      WithNothing([r] + after);
      assert ([r] + after)[1..] == after;
    } else {
      FirstOfJoin(before, [r] + after);
      var rest := before[1..];
      match before[0]
      case AText(t) => UserFromJoin(rest, r, after, if t == "" then parts else parts + [OTextPart(t)], rich);
      case AImage(m, d) =>
        if m == "" || d == "" {
          UserFromJoin(rest, r, after, parts, rich);
        } else {
          UserFromJoin(rest, r, after, parts + [OImagePart(UrlObject(DataUrl(m, d)), "")], true);
        }
      case AToolResult(_, _, _) =>
        UserFromJoin(rest, r, after, [], false);
        var first := Flush<J>(parts, rich) + [ResultMessage(before[0])];
        Associative(first, UserFrom(rest, [], false), [ResultMessage(r)]);
        Associative(first, UserFrom(rest, [], false) + [ResultMessage(r)], UserFrom(after, [], false));
      case _ => UserFromJoin(rest, r, after, parts, rich);
    }
  }

  /** MAIN RESULT. A tool result is a message of its own: a tool message under its id, or what the user
      says if it has none; what stands before and after it is translated as if it stood alone. */
  lemma ResultsStandAlone<J>(before: seq<ABlock<J>>, r: ABlock<J>, after: seq<ABlock<J>>)
    requires r.AToolResult?
    ensures UserFrom(before + ([r] + after), [], false)
      == UserFrom(before, [], false)
       + [if r.toolUseId == "" then OMessage("user", OString(Reading(r.content)), [], "", false)
          else OMessage("tool", OString(Reading(r.content)), [], r.toolUseId, r.isError)]
       + UserFrom(after, [], false)
  {
    UserFromJoin(before, r, after, [], false);
    ResultReads(r.content);
  }

  // ---------------------------------------------------------------- proper messages

  /** What an OpenAI server accepts: a known role, an id exactly on tool messages, calls only on those of
      the assistant. */
  predicate Proper<J>(m: OMessage<J>) {
    && (m.role == "system" || m.role == "user" || m.role == "assistant" || m.role == "tool")
    && (m.toolCallId != "" <==> m.role == "tool")
    && (m.isError ==> m.role == "tool")
    && (m.toolCalls != [] ==> m.role == "assistant") && !m.otherCalls
    && (m.content.OString? || (m.content.OParts? && (m.role == "system" || m.role == "user")))
  }

  predicate AllProper<J>(ms: seq<OMessage<J>>) {
    forall i :: 0 <= i < |ms| ==> Proper(ms[i])
  }

  lemma {:induction false} UserProper<J>(blocks: seq<ABlock<J>>, parts: seq<OPart>, rich: bool)
    ensures AllProper(UserFrom(blocks, parts, rich))
    decreases |blocks|
  {
    if blocks != [] {
      var rest := blocks[1..];
      match blocks[0]
      case AText(t) => UserProper(rest, if t == "" then parts else parts + [OTextPart(t)], rich);
      case AImage(m, d) =>
        if m == "" || d == "" {
          UserProper(rest, parts, rich);
        } else {
          UserProper(rest, parts + [OImagePart(UrlObject(DataUrl(m, d)), "")], true);
        }
      case AToolResult(_, _, _) => UserProper(rest, [], false);
      case _ => UserProper(rest, parts, rich);
    }
  }

  lemma TurnProper<J>(codec: Codec<J>, m: AMessage<J>)
    ensures AllProper(Turn(codec, m))
  {
    if m.role != "assistant" && m.content.ABlocks? {
      UserProper(m.content.blocks, [], false);
    }
  }

  lemma {:induction false} TurnsProper<J>(codec: Codec<J>, ms: seq<AMessage<J>>)
    ensures AllProper(Turns(codec, ms))
    decreases |ms|
  {
    if ms != [] {
      TurnsProper(codec, ms[..|ms| - 1]);
      TurnProper(codec, ms[|ms| - 1]);
    }
  }

  /** MAIN RESULT. A list of messages is refused exactly if it is empty or an entry is no object; whatever the
      conversation, its translation is made of proper messages. */
  lemma MessagesAreProper<J>(codec: Codec<J>, system: AContent<J>, entries: seq<Entry<AMessage<J>>>)
    ensures match Translate(codec, system, entries)
      case Ok(ms) => entries != [] && (forall e :: e in entries ==> e.Object?) && AllProper(ms)
      case Err(e) =>
        if entries == [] then e == "messages must be a non-empty array"
        else e == "messages entries must be objects" && exists x :: x in entries && x.NotObject?
  {
    if AllObjects(entries) {
      TurnsProper(codec, Values(entries));
    } else {
      var i :| 0 <= i < |entries| && !entries[i].Object?;
      assert entries[i] in entries;
    }
  }

  /** A system prompt of blocks is translated block by block: texts, and images that are whole. */
  lemma {:induction false} SystemBlocks<J>(a: seq<ABlock<J>>, b: seq<ABlock<J>>)
    ensures SystemParts(a + b) == SystemParts(a) + SystemParts(b)
    decreases |b|
  {
    if b == [] {
      WithNothing(a);
      WithNothing(SystemParts(a));
    } else {
      LastOfJoin(a, b);
      SystemBlocks(a, b[..|b| - 1]);
    }
  }

  lemma SystemBlock<J>(b: ABlock<J>)
    ensures SystemParts([b]) ==
      if b.AText? then [OTextPart(b.text)]
      else if b.AImage? && b.mediaType != "" && b.data != "" then
        [OImagePart(UrlObject("data:" + b.mediaType + ";base64," + b.data), "")]
      else []
  {
    assert [b][..0] == [];
    assert SystemParts<J>([b]) == SystemParts<J>([b][..0]) + SystemParts([b]);
  }

  /** A system prompt is one system message: its text, or its parts; and none if it is blank or has no part. */
  lemma SystemOmitted<J>(system: AContent<J>)
    ensures SystemMessage(system) == [] <==>
      system.ANone? || (system.AString? && Blank(system.text)) || (system.ABlocks? && SystemParts(system.blocks) == [])
    ensures SystemMessage(system) != [] ==>
      SystemMessage(system) == [OMessage("system", if system.AString? then OString(system.text)
                                                   else OParts(SystemParts(system.blocks)), [], "", false)]
  {
  }
}
