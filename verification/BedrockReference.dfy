/** The translation to Bedrock described a second time, from what the messages say and without holding
    anything back. `OpenAIToBedrock` is shown to be the same, refusals included. */
module BedrockReference {
  import opened Text
  import opened Messages
  import opened OpenAIToBedrock

  // ---------------------------------------------------------------- text

  predicate IsText(p: OPart) {
    match p
    case OTextPart(_) => true
    case OOtherPart(kind, _) => kind == ""
    case _ => false
  }

  /** Why the text of a system, developer or tool message is refused: its first part that is no text. */
  function TextFault(c: OContent): Option<string> {
    match c
    case OParts(parts) => TextPartsFault(parts)
    case OOtherContent => Some("message content must be a string or text content parts")
    case _ => None
  }

  function TextPartsFault(parts: seq<OPart>): Option<string> {
    if parts == [] then None
    else
      var before, last := TextPartsFault(parts[..|parts| - 1]), parts[|parts| - 1];
      if before.Some? || IsText(last) then before
      else if last.ONotObject? then Some("message content parts must be objects")
      else Some("Bedrock system/developer messages only support text content parts")
  }

  lemma WordsLast(parts: seq<OPart>)
    requires parts != []
    ensures Words(parts) == Words(parts[..|parts| - 1]) + [PartText(parts[|parts| - 1])]
  {
  }

  lemma {:induction false} OnlyTextsExactly(parts: seq<OPart>)
    ensures OnlyTexts(parts) ==
      if TextPartsFault(parts).Some? then Err(TextPartsFault(parts).value) else Ok(NonEmpty(Words(parts)))
    decreases |parts|
  {
    if parts != [] {
      var front, last := parts[..|parts| - 1], parts[|parts| - 1];
      OnlyTextsExactly(front);
      WordsLast(parts);
      NonEmptySnoc(Words(front), PartText(last));
      WithNothing(NonEmpty(Words(front)));
    }
  }

  lemma TextExactly(c: OContent)
    ensures MessageText(c) == if TextFault(c).Some? then Err(TextFault(c).value) else Ok(Reading(c))
  {
    if c.OParts? {
      OnlyTextsExactly(c.parts);
      JoinIsLines(Words(c.parts));
    }
  }

  // ---------------------------------------------------------------- spoken content

  /** Why a part of a user or assistant message is refused. */
  function PartFault<J>(d: Decoders<J>, role: string, p: OPart): Option<string> {
    match p
    case ONotObject => Some("message content parts must be objects")
    case OTextPart(_) => None
    case OOtherPart(kind, _) =>
      if kind == "" then None else Some("Bedrock adapter supports text and image_url content parts")
    case OImagePart(image, _) =>
      if role != "user" then Some("Bedrock adapter only supports image_url content on user messages")
      else if image.NoUrl? || Blank(image.url) || d.image(image.url).None? then Some("unsupported image_url")
      else None
  }

  function PartsFault<J>(d: Decoders<J>, role: string, parts: seq<OPart>): Option<string> {
    if parts == [] then None
    else if PartFault(d, role, parts[0]).Some? then PartFault(d, role, parts[0])
    else PartsFault(d, role, parts[1..])
  }

  /** One more part: text joins the text before it on a line of its own. */
  function Woven<J>(d: Decoders<J>, blocks: seq<BBlock<J>>, p: OPart): seq<BBlock<J>> {
    if p.OImagePart? then
      if p.image.NoUrl? || d.image(p.image.url).None? then blocks
      else blocks + [BImage(d.image(p.image.url).value)]
    else if PartText(p) == "" then blocks
    else if blocks != [] && blocks[|blocks| - 1].BText? then
      blocks[..|blocks| - 1] + [BText(blocks[|blocks| - 1].text + "\n" + PartText(p))]
    else blocks + [BText(PartText(p))]
  }

  function Weave<J>(d: Decoders<J>, blocks: seq<BBlock<J>>, parts: seq<OPart>): seq<BBlock<J>>
    decreases |parts|
  {
    if parts == [] then blocks else Weave(d, Woven(d, blocks, parts[0]), parts[1..])
  }

  /** The last block, if any, is no text. */
  predicate EndsOpen<J>(blocks: seq<BBlock<J>>) {
    blocks == [] || !blocks[|blocks| - 1].BText?
  }

  lemma WeaveText<J>(d: Decoders<J>, done: seq<BBlock<J>>, texts: seq<string>, p: OPart)
    requires EndsOpen(done) && !p.OImagePart? && PartText(p) != ""
    ensures Woven(d, done + TextBlocks(texts), p) == done + TextBlocks(texts + [PartText(p)])
  {
    if texts == [] {
      WithNothing(done);
    } else {
      var before: seq<BBlock<J>> := [BText(Join(texts, "\n"))];
      LastOfJoin(done, before);
      WithNothing(done);
      JoinSnoc(texts, "\n", PartText(p));
    }
  }

  lemma WeaveImage<J>(d: Decoders<J>, done: seq<BBlock<J>>, texts: seq<string>, p: OPart, image: string)
    requires p.OImagePart? && !p.image.NoUrl? && d.image(p.image.url) == Some(image)
    ensures Woven(d, done + TextBlocks(texts), p) == done + (TextBlocks(texts) + [BImage(image)])
    ensures EndsOpen(done + (TextBlocks(texts) + [BImage(image)]))
  {
    Associative(done, TextBlocks(texts), [BImage(image)]);
  }

  lemma {:induction false} PartsExactly<J>(d: Decoders<J>, role: string, parts: seq<OPart>, texts: seq<string>,
                                           done: seq<BBlock<J>>)
    requires EndsOpen(done)
    ensures PartsFault(d, role, parts).Some? ==>
      PartsFrom(d, role, parts, texts) == Err(PartsFault(d, role, parts).value)
    ensures PartsFault(d, role, parts).None? ==>
      PartsFrom(d, role, parts, texts).Ok?
      && Weave(d, done + TextBlocks(texts), parts) == done + PartsFrom(d, role, parts, texts).value
    decreases |parts|
  {
    if parts != [] && PartFault(d, role, parts[0]).None? {
      var p, rest := parts[0], parts[1..];
      if p.OImagePart? {
        var image := d.image(p.image.url).value;
        var first := TextBlocks<J>(texts) + [BImage(image)];
        WeaveImage(d, done, texts, p, image);
        PartsExactly(d, role, rest, [], done + first);
        WithNothing(done + first);
        assert ImageOf(d, p.image) == Some(image);
        if PartsFault(d, role, rest).None? {
          Associative(done, first, PartsFrom(d, role, rest, []).value);
        }
      } else if PartText(p) == "" {
        PartsExactly(d, role, rest, texts, done);
      } else {
        WeaveText(d, done, texts, p);
        PartsExactly(d, role, rest, texts + [PartText(p)], done);
      }
    }
  }

  function ContentFault<J>(d: Decoders<J>, role: string, c: OContent): Option<string> {
    match c
    case OParts(parts) => PartsFault(d, role, parts)
    case OOtherContent => Some("message content must be a string or content parts")
    case _ => None
  }

  function Content<J>(d: Decoders<J>, c: OContent): seq<BBlock<J>> {
    match c
    case OString(t) => if Blank(t) then [] else [BText(t)]
    case OParts(parts) => Weave(d, [], parts)
    case _ => []
  }

  lemma ContentExactly<J>(d: Decoders<J>, role: string, c: OContent)
    ensures ContentBlocks(d, role, c) ==
      if ContentFault(d, role, c).Some? then Err(ContentFault(d, role, c).value) else Ok(Content(d, c))
  {
    if c.OParts? {
      PartsExactly(d, role, c.parts, [], []);
      WithNothing<BBlock<J>>([]);
      if PartsFault(d, role, c.parts).None? {
        WithNothing(PartsFrom(d, role, c.parts, []).value);
      }
    }
  }

  // ---------------------------------------------------------------- calls

  function CallFault<J>(d: Decoders<J>, call: Entry<OCall<J>>): Option<string> {
    if call.NotObject? then Some("assistant tool_calls entries must be objects")
    else if Blank(call.value.id) || Blank(call.value.name) then
      Some("assistant tool_calls require id and function.name")
    else
      match call.value.arguments
      case ArgumentsText(t) =>
        if Blank(t) || d.codec.decode(t).Some? then None
        else Some("assistant tool_calls function.arguments must be valid JSON")
      case _ => None
  }

  /** Arguments are read if they are text; a blank text or anything else is the empty object. */
  function Use<J>(d: Decoders<J>, call: OCall<J>): BBlock<J> {
    var read := if call.arguments.ArgumentsText? && !Blank(call.arguments.text)
      then d.codec.decode(call.arguments.text) else None;
    BToolUse(call.id, call.name, if read.Some? then read.value else d.codec.emptyObject)
  }

  function CallsFault<J>(d: Decoders<J>, calls: seq<Entry<OCall<J>>>): Option<string> {
    if calls == [] then None
    else
      var before := CallsFault(d, calls[..|calls| - 1]);
      if before.Some? then before else CallFault(d, calls[|calls| - 1])
  }

  function Uses<J>(d: Decoders<J>, calls: seq<Entry<OCall<J>>>): seq<BBlock<J>> {
    if calls == [] then []
    else
      var last := calls[|calls| - 1];
      Uses(d, calls[..|calls| - 1]) + if last.Object? then [Use(d, last.value)] else []
  }

  lemma {:induction false} CallsExactly<J>(d: Decoders<J>, calls: seq<Entry<OCall<J>>>)
    ensures CallBlocks(d, calls) ==
      if CallsFault(d, calls).Some? then Err(CallsFault(d, calls).value) else Ok(Uses(d, calls))
    decreases |calls|
  {
    if calls != [] {
      CallsExactly(d, calls[..|calls| - 1]);
      if calls[|calls| - 1].Object? {
        CallExactly(d, calls[|calls| - 1].value);
      }
    }
  }

  lemma CallExactly<J>(d: Decoders<J>, call: OCall<J>)
    ensures CallBlock(d, call) ==
      if CallFault(d, Object(call)).Some? then Err(CallFault(d, Object(call)).value) else Ok(Use(d, call))
  {
  }

  // ---------------------------------------------------------------- one message

  /** A role, white space and capitals aside. */
  predicate InRole<J>(m: OMessage<J>, name: string) {
    Spells(Trim(m.role), name)
  }

  predicate Instructs<J>(m: OMessage<J>) {
    InRole(m, "system") || InRole(m, "developer")
  }

  lemma RolesExactly<J>(m: OMessage<J>)
    ensures var role := RoleName(m.role);
      && (Instructs(m) <==> role == "system" || role == "developer")
      && (InRole(m, "user") <==> role == "user")
      && (InRole(m, "assistant") <==> role == "assistant")
      && (InRole(m, "tool") <==> role == "tool")
  {
    LowerSpells(Trim(m.role), "system");
    LowerSpells(Trim(m.role), "developer");
    LowerSpells(Trim(m.role), "user");
    LowerSpells(Trim(m.role), "assistant");
    LowerSpells(Trim(m.role), "tool");
  }

  /** What a user or assistant message is refused for, and what it says if it is not. */
  function SpeechFault<J>(d: Decoders<J>, role: string, m: OMessage<J>): Option<string> {
    var content := ContentFault(d, role, m.content);
    if content.Some? || role == "user" then content
    else if m.otherCalls then Some("assistant tool_calls must be an array")
    else CallsFault(d, m.toolCalls)
  }

  function Speech<J>(d: Decoders<J>, role: string, m: OMessage<J>): seq<BBlock<J>> {
    Content(d, m.content) + if role == "assistant" then Uses(d, m.toolCalls) else []
  }

  lemma SpeechExactly<J>(d: Decoders<J>, role: string, m: OMessage<J>)
    requires role == "user" || role == "assistant"
    ensures SpokenBlocks(d, role, m) ==
      if SpeechFault(d, role, m).Some? then Err(SpeechFault(d, role, m).value) else Ok(Speech(d, role, m))
  {
    assert "user"[0] != "assistant"[0];
    ContentExactly(d, role, m.content);
    CallsExactly(d, m.toolCalls);
    WithNothing(Content(d, m.content));
  }

  function ResultFault<J>(m: OMessage<J>): Option<string> {
    if Blank(m.toolCallId) then Some("tool messages require tool_call_id") else TextFault(m.content)
  }

  function ToolResult<J>(m: OMessage<J>): BBlock<J> {
    BToolResult(m.toolCallId, Reading(m.content), m.isError)
  }

  lemma ResultExactly<J>(m: OMessage<J>)
    ensures ResultBlock(m) == if ResultFault(m).Some? then Err(ResultFault(m).value) else Ok(ToolResult(m))
  {
    TextExactly(m.content);
  }

  /** What a message is refused for. */
  function Fault<J>(d: Decoders<J>, m: Entry<OMessage<J>>): Option<string> {
    if m.NotObject? then Some("messages entries must be objects")
    else if Instructs(m.value) then TextFault(m.value.content)
    else if InRole(m.value, "user") then SpeechFault(d, "user", m.value)
    else if InRole(m.value, "assistant") then SpeechFault(d, "assistant", m.value)
    else if InRole(m.value, "tool") then ResultFault(m.value)
    else Some("Bedrock adapter supports user, assistant, system, developer, and tool messages only")
  }

  // ---------------------------------------------------------------- all messages

  /** A request under way: `gathering` while the last message may take more tool results. */
  datatype Draft<J> = Draft(system: seq<string>, messages: seq<BMessage<J>>, gathering: bool)

  /** A result goes into the message with the results just before it; whoever speaks ends that message,
      even by saying nothing; instructions do not. */
  function Written<J>(d: Decoders<J>, s: Draft<J>, m: OMessage<J>): Draft<J> {
    if Instructs(m) then
      if Blank(Reading(m.content)) then s else s.(system := s.system + [Reading(m.content)])
    else if InRole(m, "tool") then
      if s.gathering && s.messages != [] then
        var last := s.messages[|s.messages| - 1];
        s.(messages := s.messages[..|s.messages| - 1] + [BMessage(last.role, last.content + [ToolResult(m)])])
      else s.(messages := s.messages + [BMessage("user", [ToolResult(m)])], gathering := true)
    else
      var role := if InRole(m, "user") then "user" else "assistant";
      var speech := Speech(d, role, m);
      Draft(s.system, if speech == [] then s.messages else s.messages + [BMessage(role, speech)], false)
  }

  function WriteAll<J>(d: Decoders<J>, ms: seq<Entry<OMessage<J>>>): Draft<J> {
    if ms == [] then Draft([], [], false)
    else
      var before, last := WriteAll(d, ms[..|ms| - 1]), ms[|ms| - 1];
      if last.Object? then Written(d, before, last.value) else before
  }

  /** The loop holds back what the draft has as its last message. */
  ghost predicate Matches<J>(s: Input<J>, t: Draft<J>) {
    && t.system == s.system && t.messages == s.Flush().messages
    && (t.gathering <==> s.pending != [])
  }

  lemma ToolMatches<J>(s: Input<J>, t: Draft<J>, b: BBlock<J>)
    requires Matches(s, t)
    ensures s.pending != [] ==>
      t.messages != [] && s.(pending := s.pending + [b]).Flush().messages
        == t.messages[..|t.messages| - 1] + [BMessage("user", t.messages[|t.messages| - 1].content + [b])]
      && t.messages[|t.messages| - 1].role == "user"
    ensures s.pending == [] ==> s.(pending := s.pending + [b]).Flush().messages == t.messages + [BMessage("user", [b])]
  {
    if s.pending == [] {
      WithNothing([b]);
    } else {
      WithoutLast(s.messages, BMessage("user", s.pending));
    }
  }

  /** The loop refuses the message as it should, or takes it as the draft does. */
  ghost predicate StepIs<J>(d: Decoders<J>, s: Input<J>, t: Draft<J>, m: OMessage<J>) {
    if Fault(d, Object(m)).Some? then s.Step(d, m) == Err(Fault(d, Object(m)).value)
    else s.Step(d, m).Ok? && Matches(s.Step(d, m).value, Written(d, t, m))
  }

  lemma InstructionStep<J>(d: Decoders<J>, s: Input<J>, t: Draft<J>, m: OMessage<J>)
    requires Matches(s, t) && Instructs(m)
    ensures StepIs(d, s, t, m)
  {
    RolesExactly(m);
    TextExactly(m.content);
  }

  lemma SpeechStep<J>(d: Decoders<J>, s: Input<J>, t: Draft<J>, m: OMessage<J>, role: string)
    requires Matches(s, t) && (role == "user" || role == "assistant") && InRole(m, role)
    ensures StepIs(d, s, t, m)
  {
    RolesExactly(m);
    SpeechExactly(d, role, m);
  }

  lemma ToolStep<J>(d: Decoders<J>, s: Input<J>, t: Draft<J>, m: OMessage<J>)
    requires Matches(s, t) && InRole(m, "tool")
    ensures StepIs(d, s, t, m)
  {
    RolesExactly(m);
    ResultExactly(m);
    ToolMatches(s, t, ToolResult(m));
  }

  lemma OtherStep<J>(d: Decoders<J>, s: Input<J>, t: Draft<J>, m: OMessage<J>)
    requires !Instructs(m) && !InRole(m, "user") && !InRole(m, "assistant") && !InRole(m, "tool")
    ensures StepIs(d, s, t, m)
  {
    RolesExactly(m);
  }

  lemma StepExactly<J>(d: Decoders<J>, s: Input<J>, t: Draft<J>, m: OMessage<J>)
    requires Matches(s, t)
    ensures StepIs(d, s, t, m)
  {
    if Instructs(m) {
      InstructionStep(d, s, t, m);
    } else if InRole(m, "user") {
      SpeechStep(d, s, t, m, "user");
    } else if InRole(m, "assistant") {
      SpeechStep(d, s, t, m, "assistant");
    } else if InRole(m, "tool") {
      ToolStep(d, s, t, m);
    } else {
      OtherStep(d, s, t, m);
    }
  }

  /** No message before the `n`-th is refused. */
  predicate FaultlessTo<J>(d: Decoders<J>, ms: seq<Entry<OMessage<J>>>, n: nat) {
    n <= |ms| && forall i :: 0 <= i < n ==> Fault(d, ms[i]) == None
  }

  lemma {:induction false} CollectsExactly<J>(d: Decoders<J>, ms: seq<Entry<OMessage<J>>>)
    requires FaultlessTo(d, ms, |ms|)
    ensures Collect(d, ms).Ok? && Matches(Collect(d, ms).value, WriteAll(d, ms))
    decreases |ms|
  {
    if ms != [] {
      var front, last := ms[..|ms| - 1], ms[|ms| - 1];
      assert forall i :: 0 <= i < |front| ==> front[i] == ms[i];
      CollectsExactly(d, front);
      assert Fault(d, last) == None && last == Object(last.value);
      StepExactly(d, Collect(d, front).value, WriteAll(d, front), last.value);
    }
  }

  lemma FirstFault<J>(d: Decoders<J>, ms: seq<Entry<OMessage<J>>>, n: nat)
    requires n < |ms| && FaultlessTo(d, ms, n) && Fault(d, ms[n]).Some?
    ensures Collect(d, ms) == Err(Fault(d, ms[n]).value)
  {
    assert FaultlessTo(d, ms[..n], n);
    CollectsExactly(d, ms[..n]);
    TakeOneMore(ms, n);
    if ms[n].Object? {
      assert ms[n] == Object(ms[n].value);
      StepExactly(d, Collect(d, ms[..n]).value, WriteAll(d, ms[..n]), ms[n].value);
    }
    ErrorStays(d, ms, n + 1);
  }

  /** MAIN RESULT. The translation is the draft: the first message that is refused decides, with its reason;
      if none is, the request has the instructions that are not blank, and a message for each speech and
      for each stretch of tool results, in order. */
  lemma TranslatesExactly<J>(d: Decoders<J>, ms: seq<Entry<OMessage<J>>>)
    ensures ms == [] ==> Translate(d, ms) == Err("messages must be a non-empty array")
    ensures forall n: nat :: n < |ms| && FaultlessTo(d, ms, n) && Fault(d, ms[n]).Some? ==>
      Translate(d, ms) == Err(Fault(d, ms[n]).value)
    ensures ms != [] && FaultlessTo(d, ms, |ms|) ==>
      Translate(d, ms) ==
        if WriteAll(d, ms).messages == [] then Err("at least one non-empty user or assistant message is required")
        else Ok((WriteAll(d, ms).system, WriteAll(d, ms).messages))
  {
    forall n: nat | n < |ms| && FaultlessTo(d, ms, n) && Fault(d, ms[n]).Some?
      ensures Collect(d, ms) == Err(Fault(d, ms[n]).value)
    {
      FirstFault(d, ms, n);
    }
    if ms != [] && FaultlessTo(d, ms, |ms|) {
      CollectsExactly(d, ms);
    }
  }
}
