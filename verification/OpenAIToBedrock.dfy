/** The message loop of `bedrockConverseInput`: tool results are held back and sent together. */
module OpenAIToBedrock {
  import opened Text
  import opened Messages

  datatype BBlock<J> =
    | BText(text: string)
    | BImage(image: string)
    | BToolUse(id: string, name: string, input: J)
    | BToolResult(id: string, text: string, isError: bool)

  datatype BMessage<J> = BMessage(role: string, content: seq<BBlock<J>>)

  /** The JSON codec, and the decoder of image data URLs. */
  datatype Decoders<!J> = Decoders(codec: Codec<J>, image: string -> Option<string>)

  function RoleName(role: string): string {
    Lower(Trim(role))
  }

  /** A part without a type is a text part. */
  predicate IsTextPart(p: OPart) {
    p.OTextPart? || (p.OOtherPart? && p.kind == "")
  }

  /** The non-empty texts of parts that must all be text. */
  function OnlyTexts(parts: seq<OPart>): Result<seq<string>> {
    if parts == [] then Ok([])
    else
      match OnlyTexts(parts[..|parts| - 1])
      case Err(e) => Err(e)
      case Ok(before) =>
        var last := parts[|parts| - 1];
        if last.ONotObject? then Err("message content parts must be objects")
        else if IsTextPart(last) then Ok(before + if last.text == "" then [] else [last.text])
        else Err("Bedrock system/developer messages only support text content parts")
  }

  /** `openAIMessageText` */
  function MessageText(c: OContent): Result<string> {
    match c
    case ONone => Ok("")
    case OString(t) => Ok(t)
    case OParts(parts) =>
      (match OnlyTexts(parts)
       case Err(e) => Err(e)
       case Ok(texts) => Ok(Join(texts, "\n")))
    case OOtherContent => Err("message content must be a string or text content parts")
  }

  function TextBlocks<J>(texts: seq<string>): seq<BBlock<J>> {
    if texts == [] then [] else [BText(Join(texts, "\n"))]
  }

  /** The blocks of `parts` after `texts` were collected: runs of text are joined. */
  function PartsFrom<J>(d: Decoders<J>, role: string, parts: seq<OPart>, texts: seq<string>):
      Result<seq<BBlock<J>>>
  {
    if parts == [] then Ok(TextBlocks(texts))
    else if parts[0].ONotObject? then Err("message content parts must be objects")
    else if IsTextPart(parts[0]) then
      PartsFrom(d, role, parts[1..], if parts[0].text == "" then texts else texts + [parts[0].text])
    else if parts[0].OOtherPart? then Err("Bedrock adapter supports text and image_url content parts")
    else if role != "user" then Err("Bedrock adapter only supports image_url content on user messages")
    else
      match ImageOf(d, parts[0].image)
      case None => Err("unsupported image_url")
      case Some(image) =>
        match PartsFrom(d, role, parts[1..], [])
        case Err(e) => Err(e)
        case Ok(rest) => Ok(TextBlocks<J>(texts) + [BImage(image)] + rest)
  }

  /** `openAIImageURLToBedrock` */
  function ImageOf<J>(d: Decoders<J>, image: UrlField): Option<string> {
    if image.NoUrl? || Blank(image.url) then None else d.image(image.url)
  }

  /** `openAIContentBlocks` */
  function ContentBlocks<J>(d: Decoders<J>, role: string, c: OContent): Result<seq<BBlock<J>>> {
    match c
    case ONone => Ok([])
    case OString(t) => Ok(if Blank(t) then [] else [BText(t)])
    case OParts(parts) => PartsFrom(d, role, parts, [])
    case OOtherContent => Err("message content must be a string or content parts")
  }

  function CallBlock<J>(d: Decoders<J>, call: OCall<J>): Result<BBlock<J>> {
    if Blank(call.name) || Blank(call.id) then Err("assistant tool_calls require id and function.name")
    else if call.arguments.ArgumentsText? && !Blank(call.arguments.text) then
      if d.codec.decode(call.arguments.text).None? then
        Err("assistant tool_calls function.arguments must be valid JSON")
      else Ok(BToolUse(call.id, call.name, d.codec.decode(call.arguments.text).value))
    else Ok(BToolUse(call.id, call.name, d.codec.emptyObject))
  }

  /** `openAIToolCallsToBedrock` */
  function CallBlocks<J>(d: Decoders<J>, calls: seq<Entry<OCall<J>>>): Result<seq<BBlock<J>>> {
    if calls == [] then Ok([])
    else
      match CallBlocks(d, calls[..|calls| - 1])
      case Err(e) => Err(e)
      case Ok(before) =>
        var last := calls[|calls| - 1];
        if last.NotObject? then Err("assistant tool_calls entries must be objects")
        else
          match CallBlock(d, last.value)
          case Err(e) => Err(e)
          case Ok(b) => Ok(before + [b])
  }

  function ResultBlock<J>(m: OMessage<J>): Result<BBlock<J>> {
    if Blank(m.toolCallId) then Err("tool messages require tool_call_id")
    else
      match MessageText(m.content)
      case Err(e) => Err(e)
      case Ok(text) => Ok(BToolResult(m.toolCallId, text, m.isError))
  }

  /** What a user or assistant message becomes. */
  function SpokenBlocks<J>(d: Decoders<J>, role: string, m: OMessage<J>): Result<seq<BBlock<J>>> {
    match ContentBlocks(d, role, m.content)
    case Err(e) => Err(e)
    case Ok(content) =>
      if role != "assistant" then Ok(content)
      else if m.otherCalls then Err("assistant tool_calls must be an array")
      else
        match CallBlocks(d, m.toolCalls)
        case Err(e) => Err(e)
        case Ok(calls) => Ok(content + calls)
  }

  datatype Input<J> = Input(messages: seq<BMessage<J>>, system: seq<string>, pending: seq<BBlock<J>>) {
    /** The held-back tool results become one user message. */
    function Flush(): Input<J> {
      if pending == [] then this
      else this.(messages := messages + [BMessage("user", pending)], pending := [])
    }

    function Say(role: string, content: seq<BBlock<J>>): Input<J> {
      if content == [] then this else this.(messages := messages + [BMessage(role, content)])
    }

    function Step(d: Decoders<J>, m: OMessage<J>): Result<Input<J>> {
      var role := RoleName(m.role);
      if role == "system" || role == "developer" then
        match MessageText(m.content)
        case Err(e) => Err(e)
        case Ok(text) => Ok(if Blank(text) then this else this.(system := system + [text]))
      else if role == "user" || role == "assistant" then
        match SpokenBlocks(d, role, m)
        case Err(e) => Err(e)
        case Ok(content) => Ok(Flush().Say(role, content))
      else if role == "tool" then
        match ResultBlock(m)
        case Err(e) => Err(e)
        case Ok(b) => Ok(this.(pending := pending + [b]))
      else Err("Bedrock adapter supports user, assistant, system, developer, and tool messages only")
    }
  }

  function Collect<J>(d: Decoders<J>, ms: seq<Entry<OMessage<J>>>): Result<Input<J>> {
    if ms == [] then Ok(Input([], [], []))
    else
      match Collect(d, ms[..|ms| - 1])
      case Err(e) => Err(e)
      case Ok(s) =>
        if ms[|ms| - 1].NotObject? then Err("messages entries must be objects")
        else s.Step(d, ms[|ms| - 1].value)
  }

  /** System texts and messages of the request. */
  function Translate<J>(d: Decoders<J>, ms: seq<Entry<OMessage<J>>>): Result<(seq<string>, seq<BMessage<J>>)> {
    if ms == [] then Err("messages must be a non-empty array")
    else
      match Collect(d, ms)
      case Err(e) => Err(e)
      case Ok(s) =>
        if s.Flush().messages == [] then Err("at least one non-empty user or assistant message is required")
        else Ok((s.system, s.Flush().messages))
  }

  lemma {:induction false} ErrorStays<J>(d: Decoders<J>, ms: seq<Entry<OMessage<J>>>, n: nat)
    requires n <= |ms| && Collect(d, ms[..n]).Err?
    ensures Collect(d, ms) == Collect(d, ms[..n])
    decreases |ms| - n
  {
    if n == |ms| {
      assert ms[..n] == ms;
    } else {
      assert ms[..n + 1][..n] == ms[..n];
      ErrorStays(d, ms, n + 1);
    }
  }

  method BedrockConverseInput<J>(d: Decoders<J>, ms: seq<Entry<OMessage<J>>>)
    returns (r: Result<(seq<string>, seq<BMessage<J>>)>)
    ensures r == Translate(d, ms)
  {
    if ms == [] {
      return Err("messages must be a non-empty array");
    }
    var messages: seq<BMessage<J>> := [];
    var system: seq<string> := [];
    var pendingToolResults: seq<BBlock<J>> := [];
    for i := 0 to |ms|
      invariant Collect(d, ms[..i]) == Ok(Input(messages, system, pendingToolResults))
    {
      assert ms[..i + 1][..i] == ms[..i];
      if ms[i].NotObject? {
        ErrorStays(d, ms, i + 1);
        return Err("messages entries must be objects");
      }
      var m := ms[i].value;
      var role := RoleName(m.role);
      if role == "system" || role == "developer" {
        var text := MessageText(m.content);
        if text.Err? {
          ErrorStays(d, ms, i + 1);
          return Err(text.message);
        }
        if Blank(text.value) {
          continue;
        }
        system := system + [text.value];
      } else if role == "user" || role == "assistant" {
        if pendingToolResults != [] {
          messages := messages + [BMessage("user", pendingToolResults)];
          pendingToolResults := [];
        }
        var content := SpokenBlocks(d, role, m);
        if content.Err? {
          ErrorStays(d, ms, i + 1);
          return Err(content.message);
        }
        if content.value == [] {
          continue;
        }
        messages := messages + [BMessage(role, content.value)];
      } else if role == "tool" {
        var result := ResultBlock(m);
        if result.Err? {
          ErrorStays(d, ms, i + 1);
          return Err(result.message);
        }
        pendingToolResults := pendingToolResults + [result.value];
      } else {
        ErrorStays(d, ms, i + 1);
        return Err("Bedrock adapter supports user, assistant, system, developer, and tool messages only");
      }
    }
    assert ms[..|ms|] == ms;
    if pendingToolResults != [] {
      messages := messages + [BMessage("user", pendingToolResults)];
    }
    if messages == [] {
      return Err("at least one non-empty user or assistant message is required");
    }
    r := Ok((system, messages));
  }

  // ---------------------------------------------------------------- nothing is lost

  function Transcript<J>(ms: seq<BMessage<J>>): seq<Said<BBlock<J>>> {
    if ms == [] then []
    else Transcript(ms[..|ms| - 1]) + SaidBlocks(ms[|ms| - 1].role, ms[|ms| - 1].content)
  }

  /** What one OpenAI message contributes, on its own. */
  function Contribution<J>(d: Decoders<J>, m: Entry<OMessage<J>>): seq<Said<BBlock<J>>> {
    if m.NotObject? then []
    else
      var role := RoleName(m.value.role);
      if role == "user" || role == "assistant" then
        match SpokenBlocks(d, role, m.value)
        case Err(_) => []
        case Ok(content) => SaidBlocks(role, content)
      else if role == "tool" then
        match ResultBlock(m.value)
        case Err(_) => []
        case Ok(b) => SaidBlocks("user", [b])
      else []
  }

  function Contributions<J>(d: Decoders<J>, ms: seq<Entry<OMessage<J>>>): seq<Said<BBlock<J>>> {
    if ms == [] then []
    else Contributions(d, ms[..|ms| - 1]) + Contribution(d, ms[|ms| - 1])
  }

  lemma FlushSays<J>(s: Input<J>)
    ensures Transcript(s.Flush().messages) == Transcript(s.messages) + SaidBlocks("user", s.pending)
  {
    assert s.Flush().messages[..|s.messages|] == s.messages;
  }

  lemma SaySays<J>(s: Input<J>, role: string, content: seq<BBlock<J>>)
    ensures Transcript(s.Say(role, content).messages) == Transcript(s.messages) + SaidBlocks(role, content)
  {
    assert s.Say(role, content).messages[..|s.messages|] == s.messages;
  }

  lemma SpeechSays<J>(d: Decoders<J>, s: Input<J>, role: string, m: OMessage<J>)
    requires SpokenBlocks(d, role, m).Ok?
    ensures var content := SpokenBlocks(d, role, m).value;
      Transcript(s.Flush().Say(role, content).Flush().messages)
        == Transcript(s.Flush().messages) + SaidBlocks(role, content)
  {
    var content := SpokenBlocks(d, role, m).value;
    SaySays(s.Flush(), role, content);
    assert s.Flush().Say(role, content).pending == [];
  }

  lemma ResultSays<J>(s: Input<J>, b: BBlock<J>)
    ensures var t := s.(pending := s.pending + [b]);
      Transcript(t.Flush().messages) == Transcript(s.Flush().messages) + SaidBlocks("user", [b])
  {
    FlushSays(s);
    FlushSays(s.(pending := s.pending + [b]));
    assert SaidBlocks("user", s.pending + [b]) == SaidBlocks("user", s.pending) + SaidBlocks("user", [b]);
  }

  lemma StepSays<J>(d: Decoders<J>, s: Input<J>, m: OMessage<J>)
    requires s.Step(d, m).Ok?
    ensures var t := s.Step(d, m).value;
      Transcript(t.Flush().messages) == Transcript(s.Flush().messages) + Contribution(d, Object(m))
  {
    var role := RoleName(m.role);
    if role == "user" || role == "assistant" {
      SpeechSays(d, s, role, m);
    } else if role == "tool" {
      ResultSays(s, ResultBlock(m).value);
    } else {
      var t := s.Step(d, m).value;
      assert t.Flush().messages == s.Flush().messages;
    }
  }

  /** MAIN RESULT. Holding tool results back loses and reorders nothing: the Bedrock messages say,
      block by block, what the OpenAI messages say one after the other. */
  lemma {:induction false} NothingLost<J>(d: Decoders<J>, ms: seq<Entry<OMessage<J>>>)
    requires Collect(d, ms).Ok?
    ensures Transcript(Collect(d, ms).value.Flush().messages) == Contributions(d, ms)
    decreases |ms|
  {
    if ms != [] {
      NothingLost(d, ms[..|ms| - 1]);
      StepSays(d, Collect(d, ms[..|ms| - 1]).value, ms[|ms| - 1].value);
    }
  }
}
