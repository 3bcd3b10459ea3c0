/** `openAIMessagesToAnthropic` and the converters it calls. */
module OpenAIToAnthropic {
  import opened Text
  import opened Messages

  /** `openAIContentText` */
  function ContentText(c: OContent): string {
    match c
    case OString(t) => t
    case OParts(parts) => Join(PartTexts(parts), "\n")
    case _ => ""
  }

  /** The block of one content part, none, or an error. */
  function PartBlock<J>(p: OPart): Result<seq<ABlock<J>>> {
    match p
    case OTextPart(t) => Ok(if Blank(t) then [] else [AText(t)])
    case OImagePart(image, _) =>
      (match if image.UrlObject? then ParseImageUrl(image.url) else NoImage
       case NoImage => Ok([])
       case RemoteImage(u) => Ok([AUrlImage(u)])
       case InlineImage(m, d) => Ok([AImage(m, d)])
       case BadImage => Err("image_url data URLs must use the data:<media-type>;base64,<data> form"))
    case _ => Ok([])
  }

  /** What a part arrives as: text unless blank, a remote image by its URL, an inline one by its media
      type and data; an image given as a plain string, or a part of another kind, not at all. */
  lemma PartsArrive<J>(p: OPart, mediaType: string, data: string)
    ensures p.OTextPart? && !Blank(p.text) ==> PartBlock<J>(p) == Ok([AText(p.text)])
    ensures p.OImagePart? && p.image.UrlObject? && !Blank(p.image.url) && !("data:" <= p.image.url) ==>
      PartBlock<J>(p) == Ok([AUrlImage(p.image.url)])
    ensures p == OImagePart(UrlObject("data:" + mediaType + ";base64," + data), PartText(p)) ==>
      mediaType != "" && data != "" && ',' !in mediaType ==> PartBlock<J>(p) == Ok([AImage(mediaType, data)])
    ensures PartBlock<J>(p).Err? <==>
      p.OImagePart? && p.image.UrlObject? && ParseImageUrl(p.image.url).BadImage?
    ensures PartBlock<J>(p) == Ok([]) <==>
      || p.OOtherPart? || p.ONotObject? || (p.OTextPart? && Blank(p.text))
      || (p.OImagePart? && !(p.image.UrlObject? && !Blank(p.image.url)))
  {
    if p.OImagePart? && p.image.UrlObject? {
      ParsesExactly(p.image.url, mediaType, data);
    }
  }

  function PartBlocks<J>(parts: seq<OPart>): Result<seq<ABlock<J>>> {
    if parts == [] then Ok([])
    else
      match PartBlocks(parts[..|parts| - 1])
      case Err(e) => Err(e)
      case Ok(before) =>
        match PartBlock(parts[|parts| - 1])
        case Err(e) => Err(e)
        case Ok(bs) => Ok(before + bs)
  }

  function UserBlocks<J>(c: OContent): Result<seq<ABlock<J>>> {
    match c
    case OString(t) => Ok(if Blank(t) then [] else [AText(t)])
    case OParts(parts) => PartBlocks(parts)
    case _ => Ok([])
  }

  /** `openAIToolCallArgumentsToAnthropicInput` */
  function CallInput<J>(codec: Codec<J>, a: Arguments<J>): Result<J> {
    match a
    case NoArguments => Ok(codec.emptyObject)
    case ArgumentsText(t) =>
      if Blank(t) then Ok(codec.emptyObject)
      else if codec.decode(t).Some? then Ok(codec.decode(t).value)
      else Err("could not parse OpenAI tool call arguments")
    case ArgumentsObject(v) => Ok(v)
    case OtherArguments => Err("unsupported OpenAI tool call arguments type")
  }

  function CallBlock<J>(codec: Codec<J>, call: OCall<J>): Result<ABlock<J>> {
    match CallInput(codec, call.arguments)
    case Err(e) => Err(e)
    case Ok(input) =>
      Ok(AToolUse(FallbackString(call.id, codec.newId), FallbackString(call.name, "tool"), ObjectInput(input)))
  }

  function CallBlocks<J>(codec: Codec<J>, calls: seq<Entry<OCall<J>>>): Result<seq<ABlock<J>>> {
    if calls == [] then Ok([])
    else
      match CallBlocks(codec, calls[..|calls| - 1])
      case Err(e) => Err(e)
      case Ok(before) =>
        var last := calls[|calls| - 1];
        if last.NotObject? then Ok(before)
        else
          match CallBlock(codec, last.value)
          case Err(e) => Err(e)
          case Ok(b) => Ok(before + [b])
  }

  function AssistantBlocks<J>(codec: Codec<J>, m: OMessage<J>): Result<seq<ABlock<J>>> {
    var text := ContentText(m.content);
    match CallBlocks(codec, m.toolCalls)
    case Err(e) => Err(e)
    case Ok(calls) => Ok((if Blank(text) then [] else [AText(text)]) + calls)
  }

  function ResultBlock<J>(codec: Codec<J>, m: OMessage<J>): ABlock<J> {
    AToolResult(FallbackString(m.toolCallId, codec.newId), StringResult(ContentText(m.content)), m.isError)
  }

  /** The Anthropic role a message is said in; system and developer messages have none. */
  function Speaker(role: string): Option<string> {
    match role
    case "system" => None
    case "developer" => None
    case "assistant" => Some("assistant")
    case _ => Some("user")
  }

  /** The blocks a message is converted to. */
  function MessageBlocks<J>(codec: Codec<J>, m: OMessage<J>): Result<seq<ABlock<J>>> {
    match m.role
    case "system" => Ok([])
    case "developer" => Ok([])
    case "assistant" => AssistantBlocks(codec, m)
    case "tool" => Ok([ResultBlock(codec, m)])
    case _ => UserBlocks(m.content)
  }

  function SystemTexts<J>(m: OMessage<J>): seq<string> {
    if Speaker(m.role) == None && ContentText(m.content) != "" then [ContentText(m.content)] else []
  }

  /** `appendBlocks`: blocks of the same role as the last turn join it. */
  function AppendBlocks<J>(turns: seq<AMessage<J>>, role: string, blocks: seq<ABlock<J>>): seq<AMessage<J>> {
    if blocks == [] then turns
    else if turns != [] && turns[|turns| - 1].role == role && turns[|turns| - 1].content.ABlocks? then
      turns[|turns| - 1 := AMessage(role, ABlocks(turns[|turns| - 1].content.blocks + blocks))]
    else turns + [AMessage(role, ABlocks(blocks))]
  }

  datatype Conversation<J> = Conversation(system: seq<string>, turns: seq<AMessage<J>>)

  /** The conversation after some messages, or the first error. */
  function Collect<J>(codec: Codec<J>, ms: seq<Entry<OMessage<J>>>): Result<Conversation<J>> {
    if ms == [] then Ok(Conversation([], []))
    else
      match Collect(codec, ms[..|ms| - 1])
      case Err(e) => Err(e)
      case Ok(c) =>
        var last := ms[|ms| - 1];
        if last.NotObject? then Err("messages entries must be objects")
        else
          match MessageBlocks(codec, last.value)
          case Err(e) => Err(e)
          case Ok(blocks) =>
            match Speaker(last.value.role)
            case None => Ok(c.(system := c.system + SystemTexts(last.value)))
            case Some(role) => Ok(c.(turns := AppendBlocks(c.turns, role, blocks)))
  }

  function Translate<J>(codec: Codec<J>, ms: seq<Entry<OMessage<J>>>): Result<(string, seq<AMessage<J>>)> {
    if ms == [] then Err("messages must be a non-empty array")
    else
      match Collect(codec, ms)
      case Err(e) => Err(e)
      case Ok(c) =>
        if c.turns == [] then Err("messages must include at least one user or assistant message")
        else Ok((Join(c.system, "\n\n"), c.turns))
  }

  lemma {:induction false} ErrorStays<J>(codec: Codec<J>, ms: seq<Entry<OMessage<J>>>, n: nat)
    requires n <= |ms| && Collect(codec, ms[..n]).Err?
    ensures Collect(codec, ms) == Collect(codec, ms[..n])
    decreases |ms| - n
  {
    if n == |ms| {
      assert ms[..n] == ms;
    } else {
      assert ms[..n + 1][..n] == ms[..n];
      ErrorStays(codec, ms, n + 1);
    }
  }

  method UserMessageToAnthropic<J>(content: OContent) returns (r: Result<seq<ABlock<J>>>)
    ensures r == UserBlocks<J>(content)
  {
    if content.OString? {
      if Blank(content.text) {
        return Ok([]);
      }
      return Ok([AText(content.text)]);
    }
    if !content.OParts? {
      return Ok([]);
    }
    var parts := content.parts;
    var blocks: seq<ABlock<J>> := [];
    for i := 0 to |parts|
      invariant PartBlocks<J>(parts[..i]) == Ok(blocks)
    {
      assert parts[..i + 1][..i] == parts[..i];
      assert blocks + [] == blocks;
      match parts[i]
      case OTextPart(text) =>
        if !Blank(text) {
          blocks := blocks + [AText(text)];
        }
      case OImagePart(_, _) =>
        var image := PartBlock<J>(parts[i]);
        if image.Err? {
          PartErrorStays<J>(parts, i + 1);
          return Err(image.message);
        }
        blocks := blocks + image.value;
      case _ =>
    }
    assert parts[..|parts|] == parts;
    r := Ok(blocks);
  }

  lemma {:induction false} PartErrorStays<J>(parts: seq<OPart>, n: nat)
    requires n <= |parts| && PartBlocks<J>(parts[..n]).Err?
    ensures PartBlocks<J>(parts) == PartBlocks<J>(parts[..n])
    decreases |parts| - n
  {
    if n == |parts| {
      assert parts[..n] == parts;
    } else {
      assert parts[..n + 1][..n] == parts[..n];
      PartErrorStays<J>(parts, n + 1);
    }
  }

  method AssistantMessageToAnthropic<J>(codec: Codec<J>, m: OMessage<J>) returns (r: Result<seq<ABlock<J>>>)
    ensures r == AssistantBlocks(codec, m)
  {
    var blocks: seq<ABlock<J>> := [];
    var text := ContentText(m.content);
    if !Blank(text) {
      blocks := [AText(text)];
    }
    ghost var first := blocks;
    assert blocks[|first|..] == [];
    var calls := m.toolCalls;
    for i := 0 to |calls|
      invariant |first| <= |blocks| && blocks[..|first|] == first
      invariant CallBlocks(codec, calls[..i]) == Ok(blocks[|first|..])
    {
      assert calls[..i + 1][..i] == calls[..i];
      if calls[i].NotObject? {
        continue;
      }
      var block := CallBlock(codec, calls[i].value);
      if block.Err? {
        CallErrorStays(codec, calls, i + 1);
        return Err(block.message);
      }
      assert (blocks + [block.value])[|first|..] == blocks[|first|..] + [block.value];
      blocks := blocks + [block.value];
    }
    assert calls[..|calls|] == calls;
    assert blocks == first + blocks[|first|..];
    r := Ok(blocks);
  }

  lemma {:induction false} CallErrorStays<J>(codec: Codec<J>, calls: seq<Entry<OCall<J>>>, n: nat)
    requires n <= |calls| && CallBlocks(codec, calls[..n]).Err?
    ensures CallBlocks(codec, calls) == CallBlocks(codec, calls[..n])
    decreases |calls| - n
  {
    if n == |calls| {
      assert calls[..n] == calls;
    } else {
      assert calls[..n + 1][..n] == calls[..n];
      CallErrorStays(codec, calls, n + 1);
    }
  }

  method MessageToAnthropic<J>(codec: Codec<J>, m: OMessage<J>) returns (r: Result<seq<ABlock<J>>>)
    requires Speaker(m.role).Some?
    ensures r == MessageBlocks(codec, m)
  {
    if m.role == "assistant" {
      r := AssistantMessageToAnthropic(codec, m);
    } else if m.role == "tool" {
      r := Ok([ResultBlock(codec, m)]);
    } else {
      r := UserMessageToAnthropic(m.content);
    }
  }

  method MessagesToAnthropic<J>(codec: Codec<J>, ms: seq<Entry<OMessage<J>>>)
    returns (r: Result<(string, seq<AMessage<J>>)>)
    ensures r == Translate(codec, ms)
  {
    if ms == [] {
      return Err("messages must be a non-empty array");
    }
    var systemParts: seq<string>, turns: seq<AMessage<J>> := [], [];
    for i := 0 to |ms|
      invariant Collect(codec, ms[..i]) == Ok(Conversation(systemParts, turns))
    {
      assert ms[..i + 1][..i] == ms[..i];
      if ms[i].NotObject? {
        ErrorStays(codec, ms, i + 1);
        return Err("messages entries must be objects");
      }
      var m := ms[i].value;
      var speaker := Speaker(m.role);
      assert systemParts + [] == systemParts;
      if speaker.None? {
        var text := ContentText(m.content);
        if text != "" {
          systemParts := systemParts + [text];
        }
      } else {
        var converted := MessageToAnthropic(codec, m);
        if converted.Err? {
          ErrorStays(codec, ms, i + 1);
          return Err(converted.message);
        }
        turns := AppendBlocks(turns, speaker.value, converted.value);
      }
    }
    assert ms[..|ms|] == ms;
    if turns == [] {
      return Err("messages must include at least one user or assistant message");
    }
    r := Ok((Join(systemParts, "\n\n"), turns));
  }

  // ---------------------------------------------------------------- canonical grouping

  /** What a message says, in order; nothing if it is a system message or in error. */
  function MessageSays<J>(codec: Codec<J>, m: Entry<OMessage<J>>): seq<Said<ABlock<J>>> {
    if m.NotObject? || Speaker(m.value.role).None? || MessageBlocks(codec, m.value).Err? then []
    else SaidBlocks(Speaker(m.value.role).value, MessageBlocks(codec, m.value).value)
  }

  function MessagesSay<J>(codec: Codec<J>, ms: seq<Entry<OMessage<J>>>): seq<Said<ABlock<J>>> {
    if ms == [] then []
    else MessagesSay(codec, ms[..|ms| - 1]) + MessageSays(codec, ms[|ms| - 1])
  }

  lemma {:induction false} MessagesSayAppend<J>(codec: Codec<J>, a: seq<Entry<OMessage<J>>>,
                                               b: seq<Entry<OMessage<J>>>)
    ensures MessagesSay(codec, a + b) == MessagesSay(codec, a) + MessagesSay(codec, b)
    decreases |b|
  {
    if b == [] {
      assert a + b == a;
    } else {
      MessagesSayAppend(codec, a, b[..|b| - 1]);
      LastOfJoin(a, b);
      Associative(MessagesSay(codec, a), MessagesSay(codec, b[..|b| - 1]), MessageSays(codec, b[|b| - 1]));
    }
  }

  function TurnSays<J>(t: AMessage<J>): seq<Said<ABlock<J>>> {
    if t.content.ABlocks? then SaidBlocks(t.role, t.content.blocks) else []
  }

  function TurnsSay<J>(ts: seq<AMessage<J>>): seq<Said<ABlock<J>>> {
    if ts == [] then [] else TurnsSay(ts[..|ts| - 1]) + TurnSays(ts[|ts| - 1])
  }

  /** No empty turn, and never two turns of one role in a row. */
  predicate Canonical<J>(ts: seq<AMessage<J>>) {
    && (forall i :: 0 <= i < |ts| ==> ts[i].content.ABlocks? && |ts[i].content.blocks| > 0)
    && (forall i :: 0 < i < |ts| ==> ts[i - 1].role != ts[i].role)
  }

  lemma AppendCanonical<J>(ts: seq<AMessage<J>>, role: string, blocks: seq<ABlock<J>>)
    requires Canonical(ts)
    ensures Canonical(AppendBlocks(ts, role, blocks))
    ensures TurnsSay(AppendBlocks(ts, role, blocks)) == TurnsSay(ts) + SaidBlocks(role, blocks)
  {
    if blocks == [] {
      WithNothing(TurnsSay(ts));
    } else if ts != [] && ts[|ts| - 1].role == role {
      AppendToLast(ts, role, blocks);
      LastSays(ts, role, blocks);
    } else {
      WithoutLast(ts, AMessage(role, ABlocks(blocks)));
    }
  }

  lemma LastSays<J>(ts: seq<AMessage<J>>, role: string, blocks: seq<ABlock<J>>)
    requires Canonical(ts) && ts != [] && ts[|ts| - 1].role == role
    ensures TurnsSay(AppendBlocks(ts, role, blocks)) == TurnsSay(ts) + SaidBlocks(role, blocks)
  {
    var n := |ts| - 1;
    var last := ts[n].content.blocks;
    if blocks == [] {
      WithNothing(TurnsSay(ts));
    } else {
      assert AppendBlocks(ts, role, blocks)[..n] == ts[..n];
      SaidJoin(role, last, blocks);
      Associative(TurnsSay(ts[..n]), SaidBlocks(role, last), SaidBlocks(role, blocks));
    }
  }

  lemma AppendToLast<J>(ts: seq<AMessage<J>>, role: string, blocks: seq<ABlock<J>>)
    requires Canonical(ts) && ts != [] && ts[|ts| - 1].role == role
    ensures Canonical(AppendBlocks(ts, role, blocks))
  {
  }

  lemma SaidJoin<J>(role: string, a: seq<ABlock<J>>, b: seq<ABlock<J>>)
    ensures SaidBlocks(role, a + b) == SaidBlocks(role, a) + SaidBlocks(role, b)
  {
  }

  lemma {:induction false} CollectCanonical<J>(codec: Codec<J>, ms: seq<Entry<OMessage<J>>>)
    requires Collect(codec, ms).Ok?
    ensures Canonical(Collect(codec, ms).value.turns)
    ensures TurnsSay(Collect(codec, ms).value.turns) == MessagesSay(codec, ms)
    decreases |ms|
  {
    if ms != [] {
      var front, last := ms[..|ms| - 1], ms[|ms| - 1].value;
      CollectCanonical(codec, front);
      if Speaker(last.role).Some? {
        AppendCanonical(Collect(codec, front).value.turns, Speaker(last.role).value,
                        MessageBlocks(codec, last).value);
      }
    }
  }

  /** MAIN RESULT. A conversation that translates has at least one turn and no empty one, its roles
      alternate, and it says exactly what the messages say, block by block and in order. */
  lemma TranslateGroups<J>(codec: Codec<J>, ms: seq<Entry<OMessage<J>>>)
    requires Translate(codec, ms).Ok?
    ensures var ts := Translate(codec, ms).value.1;
      ts != [] && Canonical(ts) && TurnsSay(ts) == MessagesSay(codec, ms)
  {
    CollectCanonical(codec, ms);
  }

  /** The reference: blocks put into turns one at a time. */
  function Group<J>(said: seq<Said<ABlock<J>>>): seq<AMessage<J>> {
    if said == [] then []
    else
      var last := said[|said| - 1];
      AppendBlocks(Group(said[..|said| - 1]), last.role, [last.block])
  }

  lemma AppendOneMore<J>(ts: seq<AMessage<J>>, role: string, blocks: seq<ABlock<J>>, b: ABlock<J>)
    ensures AppendBlocks(AppendBlocks(ts, role, blocks), role, [b]) == AppendBlocks(ts, role, blocks + [b])
  {
    if blocks == [] {
      WithNothing([b]);
    } else if ts != [] && ts[|ts| - 1].role == role && ts[|ts| - 1].content.ABlocks? {
      var earlier := ts[|ts| - 1].content.blocks;
      Associative(earlier, blocks, [b]);
    }
  }

  lemma {:induction false} GroupMore<J>(said: seq<Said<ABlock<J>>>, role: string, blocks: seq<ABlock<J>>)
    ensures Group(said + SaidBlocks(role, blocks)) == AppendBlocks(Group(said), role, blocks)
    decreases |blocks|
  {
    if blocks == [] {
      assert said + SaidBlocks<ABlock<J>>(role, []) == said;
    } else {
      var front, b := blocks[..|blocks| - 1], blocks[|blocks| - 1];
      GroupMore(said, role, front);
      SaidLast(role, blocks);
      LastOfJoin(said, SaidBlocks(role, blocks));
      AppendOneMore(Group(said), role, front, b);
      LastOf(blocks);
    }
  }

  lemma SaidLast<J>(role: string, blocks: seq<ABlock<J>>)
    requires blocks != []
    ensures var said, n := SaidBlocks(role, blocks), |blocks| - 1;
      said != [] && said[..|said| - 1] == SaidBlocks(role, blocks[..n]) && said[|said| - 1] == Said(role, blocks[n])
  {
  }

  lemma CanonicalFront<J>(ts: seq<AMessage<J>>)
    requires Canonical(ts) && ts != []
    ensures var front, t := ts[..|ts| - 1], ts[|ts| - 1];
      && Canonical(front) && t.content.ABlocks?
      && AppendBlocks(front, t.role, t.content.blocks) == ts
  {
    var front, t := ts[..|ts| - 1], ts[|ts| - 1];
    if front != [] {
      assert front[|front| - 1].role != t.role;
    }
    assert ts == front + [t];
    assert t == AMessage(t.role, ABlocks(t.content.blocks));
  }

  lemma {:induction false} GroupOfTurns<J>(ts: seq<AMessage<J>>)
    requires Canonical(ts)
    ensures Group(TurnsSay(ts)) == ts
    decreases |ts|
  {
    if ts != [] {
      var front, t := ts[..|ts| - 1], ts[|ts| - 1];
      CanonicalFront(ts);
      GroupOfTurns(front);
      GroupMore(TurnsSay(front), t.role, t.content.blocks);
    }
  }

  /** MAIN RESULT. There is one canonical way to say something in turns: the translation is the
      block-by-block grouping of what the messages say, and canonical turns that say the same are
      equal. */
  lemma GroupingIsUnique<J>(codec: Codec<J>, ms: seq<Entry<OMessage<J>>>, us: seq<AMessage<J>>)
    requires Translate(codec, ms).Ok?
    ensures Translate(codec, ms).value.1 == Group(MessagesSay(codec, ms))
    ensures Canonical(us) && TurnsSay(us) == MessagesSay(codec, ms) ==> Translate(codec, ms).value.1 == us
  {
    TranslateGroups(codec, ms);
    GroupOfTurns(Translate(codec, ms).value.1);
    if Canonical(us) {
      GroupOfTurns(us);
    }
  }

  // ---------------------------------------------------------------- message by message

  /** A data URL that is not that of a media type without comma and of data. */
  ghost predicate Malformed(p: OPart) {
    && p.OImagePart? && p.image.UrlObject? && "data:" <= p.image.url
    && !exists mediaType: string, data: string ::
         mediaType != "" && data != "" && ',' !in mediaType && p.image.url == "data:" + mediaType + ";base64," + data
  }

  lemma MalformedExactly<J>(p: OPart)
    ensures PartBlock<J>(p).Err? <==> Malformed(p)
  {
    if p.OImagePart? && p.image.UrlObject? {
      var url := p.image.url;
      ParsesExactly(url, "", "");
      if ParseImageUrl(url).InlineImage? {
        var image := ParseImageUrl(url);
        ParsesExactly(url, image.mediaType, image.data);
      }
      if "data:" <= url && !Malformed(p) {
        var mediaType: string, data: string :|
          mediaType != "" && data != "" && ',' !in mediaType && url == "data:" + mediaType + ";base64," + data;
        ParsesExactly(url, mediaType, data);
      }
      if "data:" <= url {
        assert url[0] == 'd' && url[0] in url;
      }
    }
  }

  ghost predicate SomeMalformed(parts: seq<OPart>) {
    exists i :: 0 <= i < |parts| && Malformed(parts[i])
  }

  lemma SomeMalformedSnoc(parts: seq<OPart>, last: OPart)
    ensures SomeMalformed(parts + [last]) <==> SomeMalformed(parts) || Malformed(last)
  {
    var more := parts + [last];
    assert more[|parts|] == last;
    if SomeMalformed(parts) {
      var i :| 0 <= i < |parts| && Malformed(parts[i]);
      assert more[i] == parts[i];
    }
  }

  /** What a call's arguments are refused for. */
  function ArgumentsFault<J>(codec: Codec<J>, a: Arguments<J>): Option<string> {
    if a.OtherArguments? then Some("unsupported OpenAI tool call arguments type")
    else if a.ArgumentsText? && !Blank(a.text) && codec.decode(a.text).None? then
      Some("could not parse OpenAI tool call arguments")
    else None
  }

  /** The tool use a call becomes: a made-up id and the name `tool` where it lacks them, and the empty object
      for no arguments. */
  function Use<J>(codec: Codec<J>, call: OCall<J>): ABlock<J> {
    var input :=
      if call.arguments.ArgumentsObject? then call.arguments.value
      else if call.arguments.ArgumentsText? && !Blank(call.arguments.text)
              && codec.decode(call.arguments.text).Some? then codec.decode(call.arguments.text).value
      else codec.emptyObject;
    AToolUse(if Blank(call.id) then codec.newId else call.id, if Blank(call.name) then "tool" else call.name,
             ObjectInput(input))
  }

  function CallsFault<J>(codec: Codec<J>, calls: seq<Entry<OCall<J>>>): Option<string> {
    if calls == [] then None
    else
      var before, last := CallsFault(codec, calls[..|calls| - 1]), calls[|calls| - 1];
      if before.Some? then before else if last.Object? then ArgumentsFault(codec, last.value.arguments) else None
  }

  function Uses<J>(codec: Codec<J>, calls: seq<Entry<OCall<J>>>): seq<ABlock<J>> {
    if calls == [] then []
    else
      var last := calls[|calls| - 1];
      Uses(codec, calls[..|calls| - 1]) + if last.Object? then [Use(codec, last.value)] else []
  }

  lemma {:induction false} CallsArrive<J>(codec: Codec<J>, calls: seq<Entry<OCall<J>>>)
    ensures CallBlocks(codec, calls) ==
      if CallsFault(codec, calls).Some? then Err(CallsFault(codec, calls).value) else Ok(Uses(codec, calls))
    decreases |calls|
  {
    if calls != [] {
      CallsArrive(codec, calls[..|calls| - 1]);
      WithNothing(Uses(codec, calls[..|calls| - 1]));
    }
  }

  /** What a message is refused for; `None` if it is not. */
  ghost function Fault<J>(codec: Codec<J>, m: Entry<OMessage<J>>): Option<string> {
    if m.NotObject? then Some("messages entries must be objects")
    else if m.value.role == "assistant" then CallsFault(codec, m.value.toolCalls)
    else if m.value.role == "system" || m.value.role == "developer" || m.value.role == "tool" then None
    else if m.value.content.OParts? && SomeMalformed(m.value.content.parts) then
      Some("image_url data URLs must use the data:<media-type>;base64,<data> form")
    else None
  }

  /** What a message says, and in which role. */
  function Speech<J>(codec: Codec<J>, m: OMessage<J>): seq<Said<ABlock<J>>> {
    if m.role == "system" || m.role == "developer" then []
    else if m.role == "assistant" then
      var text := Reading(m.content);
      SaidBlocks("assistant", (if Blank(text) then [] else [AText(text)]) + Uses(codec, m.toolCalls))
    else if m.role == "tool" then
      SaidBlocks("user", [AToolResult(if Blank(m.toolCallId) then codec.newId else m.toolCallId,
                                      StringResult(Reading(m.content)), m.isError)])
    else
      match m.content
      case OString(t) => SaidBlocks("user", if Blank(t) then [] else [AText(t)])
      case OParts(parts) => SaidBlocks("user", Arrivals(parts))
      case _ => []
  }

  function Arrivals<J>(parts: seq<OPart>): seq<ABlock<J>> {
    if parts == [] then []
    else
      Arrivals(parts[..|parts| - 1])
      + if PartBlock<J>(parts[|parts| - 1]).Ok? then PartBlock<J>(parts[|parts| - 1]).value else []
  }

  lemma {:induction false} PartsFault<J>(parts: seq<OPart>)
    ensures PartBlocks<J>(parts) ==
      if SomeMalformed(parts) then Err("image_url data URLs must use the data:<media-type>;base64,<data> form")
      else Ok(Arrivals(parts))
    decreases |parts|
  {
    if parts != [] {
      var front, last := parts[..|parts| - 1], parts[|parts| - 1];
      PartsFault<J>(front);
      LastOf(parts);
      SomeMalformedSnoc(front, last);
      PartFault<J>(last);
    }
  }

  lemma PartFault<J>(p: OPart)
    ensures if Malformed(p) then
        PartBlock<J>(p) == Err("image_url data URLs must use the data:<media-type>;base64,<data> form")
      else PartBlock<J>(p).Ok?
  {
    MalformedExactly<J>(p);
  }

  lemma MessageArrives<J>(codec: Codec<J>, m: OMessage<J>)
    ensures MessageBlocks(codec, m).Err? <==> Fault(codec, Object(m)).Some?
    ensures MessageBlocks(codec, m).Err? ==> MessageBlocks(codec, m).message == Fault(codec, Object(m)).value
    ensures Speaker(m.role).None? <==> m.role == "system" || m.role == "developer"
    ensures MessageSays(codec, Object(m)) == if Fault(codec, Object(m)).Some? then [] else Speech(codec, m)
  {
    InstructionReads(m);
    if m.role == "assistant" {
      CallsArrive(codec, m.toolCalls);
    } else if m.role != "system" && m.role != "developer" && m.role != "tool" {
      UserArrives(codec, m);
    }
  }

  lemma OtherRoles<J>(codec: Codec<J>, m: OMessage<J>)
    requires m.role != "assistant" && m.role != "system" && m.role != "developer" && m.role != "tool"
    ensures Speaker(m.role) == Some("user") && MessageBlocks(codec, m) == UserBlocks(m.content)
  {
  }

  lemma UserArrives<J>(codec: Codec<J>, m: OMessage<J>)
    requires m.role != "assistant" && m.role != "system" && m.role != "developer" && m.role != "tool"
    ensures MessageBlocks(codec, m).Err? <==> Fault(codec, Object(m)).Some?
    ensures MessageBlocks(codec, m).Err? ==> MessageBlocks(codec, m).message == Fault(codec, Object(m)).value
    ensures Speaker(m.role) == Some("user")
    ensures MessageBlocks(codec, m).Ok? ==> SaidBlocks("user", MessageBlocks(codec, m).value) == Speech(codec, m)
  {
    OtherRoles(codec, m);
    if m.content.OParts? {
      PartsFault<J>(m.content.parts);
    }
  }

  /** The texts of system and developer messages. */
  function Instructions<J>(ms: seq<Entry<OMessage<J>>>): seq<string> {
    if ms == [] then []
    else
      var last := ms[|ms| - 1];
      Instructions(ms[..|ms| - 1])
      + if last.Object? && (last.value.role == "system" || last.value.role == "developer")
        then [Reading(last.value.content)] else []
  }

  function AllSpeech<J>(codec: Codec<J>, ms: seq<Entry<OMessage<J>>>): seq<Said<ABlock<J>>> {
    if ms == [] then []
    else
      var last := ms[|ms| - 1];
      AllSpeech(codec, ms[..|ms| - 1]) + if last.Object? then Speech(codec, last.value) else []
  }

  /** No message before the `n`-th is refused. */
  ghost predicate FaultlessTo<J>(codec: Codec<J>, ms: seq<Entry<OMessage<J>>>, n: nat) {
    n <= |ms| && forall i :: 0 <= i < n ==> Fault(codec, ms[i]) == None
  }

  lemma {:induction false} CollectsExactly<J>(codec: Codec<J>, ms: seq<Entry<OMessage<J>>>)
    requires FaultlessTo(codec, ms, |ms|)
    ensures Collect(codec, ms).Ok?
    ensures Collect(codec, ms).value.system == NonEmpty(Instructions(ms))
    ensures MessagesSay(codec, ms) == AllSpeech(codec, ms)
    decreases |ms|
  {
    if ms != [] {
      var front, last := ms[..|ms| - 1], ms[|ms| - 1];
      assert forall i :: 0 <= i < |front| ==> front[i] == ms[i];
      CollectsExactly(codec, front);
      assert Fault(codec, last) == None && last == Object(last.value);
      MessageArrives(codec, last.value);
      InstructionReads(last.value);
      NonEmptySnoc(Instructions(front), Reading(last.value.content));
      WithNothing(NonEmpty(Instructions(front)));
      WithNothing(Instructions(front));
    }
  }

  lemma InstructionReads<J>(m: OMessage<J>)
    ensures ContentText(m.content) == Reading(m.content)
  {
    if m.content.OParts? {
      PartTextsRead(m.content.parts);
    }
  }

  lemma FirstFault<J>(codec: Codec<J>, ms: seq<Entry<OMessage<J>>>, n: nat)
    requires n < |ms| && FaultlessTo(codec, ms, n) && Fault(codec, ms[n]).Some?
    ensures Collect(codec, ms) == Err(Fault(codec, ms[n]).value)
  {
    assert FaultlessTo(codec, ms[..n], n);
    CollectsExactly(codec, ms[..n]);
    TakeOneMore(ms, n);
    if ms[n].Object? {
      assert ms[n] == Object(ms[n].value);
      MessageArrives(codec, ms[n].value);
    }
    ErrorStays(codec, ms, n + 1);
  }

  /** MAIN RESULT. The translation, message by message: the first message that is refused decides, with its
      reason; if none is, and somebody speaks, the system prompt is what the system and developer messages
      say, a blank line between them, and the turns are what the others say, grouped by role. */
  lemma TranslatesExactly<J>(codec: Codec<J>, ms: seq<Entry<OMessage<J>>>)
    ensures ms == [] ==> Translate(codec, ms) == Err("messages must be a non-empty array")
    ensures forall n: nat :: n < |ms| && FaultlessTo(codec, ms, n) && Fault(codec, ms[n]).Some? ==>
      Translate(codec, ms) == Err(Fault(codec, ms[n]).value)
    ensures ms != [] && FaultlessTo(codec, ms, |ms|) ==>
      Translate(codec, ms) ==
        if AllSpeech(codec, ms) == [] then Err("messages must include at least one user or assistant message")
        else Ok((Lines(Instructions(ms), "\n\n"), Group(AllSpeech(codec, ms))))
  {
    forall n: nat | n < |ms| && FaultlessTo(codec, ms, n) && Fault(codec, ms[n]).Some?
      ensures Collect(codec, ms) == Err(Fault(codec, ms[n]).value)
    {
      FirstFault(codec, ms, n);
    }
    if ms != [] && FaultlessTo(codec, ms, |ms|) {
      CollectsExactly(codec, ms);
      JoinIsLines(Instructions(ms), "\n\n");
      CollectCanonical(codec, ms);
      GroupOfTurns(Collect(codec, ms).value.turns);
      NothingGrouped(Collect(codec, ms).value.turns);
    }
  }

  lemma NothingGrouped<J>(ts: seq<AMessage<J>>)
    requires Canonical(ts)
    ensures ts == [] <==> TurnsSay(ts) == []
  {
    if ts != [] {
      var t := ts[|ts| - 1];
      assert |TurnsSay(ts)| >= |TurnSays(t)| && |TurnSays(t)| == |t.content.blocks|;
    }
  }
}
