/** A conversation translated to OpenAI and back. */
module ConversationRoundTrip {
  import opened Text
  import opened Messages
  import A = AnthropicToOpenAI
  import opened OpenAIToAnthropic

  // ---------------------------------------------------------------- normal form

  /** Blocks a user may send that both protocols can express. */
  predicate NormalUserBlock<J>(b: ABlock<J>) {
    match b
    case AText(t) => !Blank(t)
    case AImage(m, d) => m != "" && d != "" && ',' !in m
    case AToolResult(id, content, _) => !Blank(id) && content.StringResult?
    case _ => false
  }

  /** Between tool results there is an image, or at most one text; `texts` and `rich` count what
      the current run already has. */
  predicate NormalRuns<J>(blocks: seq<ABlock<J>>, texts: nat, rich: bool) {
    if blocks == [] then rich || texts <= 1
    else
      match blocks[0]
      case AText(_) => NormalRuns(blocks[1..], texts + 1, rich)
      case AImage(_, _) => NormalRuns(blocks[1..], texts, true)
      case AToolResult(_, _, _) => (rich || texts <= 1) && NormalRuns(blocks[1..], 0, false)
      case _ => false
  }

  predicate NormalUser<J>(blocks: seq<ABlock<J>>) {
    (forall i :: 0 <= i < |blocks| ==> NormalUserBlock(blocks[i])) && NormalRuns(blocks, 0, false)
  }

  predicate NormalToolUse<J>(b: ABlock<J>) {
    b.AToolUse? && !Blank(b.id) && !Blank(b.name) && b.input.ObjectInput?
  }

  /** At most one text, before the tool uses. */
  predicate NormalAssistant<J>(blocks: seq<ABlock<J>>) {
    forall i :: 0 <= i < |blocks| ==>
      (i == 0 && blocks[0].AText? && !Blank(blocks[0].text)) || NormalToolUse(blocks[i])
  }

  predicate NormalTurn<J>(t: AMessage<J>) {
    t.content.ABlocks? &&
    if t.role == "assistant" then NormalAssistant(t.content.blocks)
    else t.role == "user" && NormalUser(t.content.blocks)
  }

  /** Non-empty turns of alternating roles, each normal. */
  predicate NormalConversation<J>(ts: seq<AMessage<J>>) {
    ts != [] && Canonical(ts) && forall i :: 0 <= i < |ts| ==> NormalTurn(ts[i])
  }

  // ---------------------------------------------------------------- messages that convert

  function Wrap<M>(ms: seq<M>): seq<Entry<M>> {
    seq(|ms|, i requires 0 <= i < |ms| => Object(ms[i]))
  }

  /** Messages that all convert, and together say `said`. */
  ghost predicate Says<J>(codec: Codec<J>, ms: seq<OMessage<J>>, said: seq<Said<ABlock<J>>>) {
    && (forall i :: 0 <= i < |ms| ==> MessageBlocks(codec, ms[i]).Ok?)
    && MessagesSay(codec, Wrap(ms)) == said
  }

  lemma SaysAppend<J>(codec: Codec<J>, a: seq<OMessage<J>>, x: seq<Said<ABlock<J>>>,
                      b: seq<OMessage<J>>, y: seq<Said<ABlock<J>>>)
    requires Says(codec, a, x) && Says(codec, b, y)
    ensures Says(codec, a + b, x + y)
  {
    WrapJoin(a, b);
    MessagesSayAppend(codec, Wrap(a), Wrap(b));
  }

  lemma WrapJoin<M>(a: seq<M>, b: seq<M>)
    ensures Wrap(a + b) == Wrap(a) + Wrap(b)
  {
  }

  lemma SaysOne<J>(codec: Codec<J>, m: OMessage<J>, role: string, blocks: seq<ABlock<J>>)
    requires Speaker(m.role) == Some(role) && MessageBlocks(codec, m) == Ok(blocks)
    ensures Says(codec, [m], SaidBlocks(role, blocks))
  {
    var w := Wrap([m]);
    assert w[..0] == [] && w[0] == Object(m);
    assert MessagesSay(codec, w) == MessagesSay(codec, w[..0]) + MessageSays(codec, w[0]);
  }

  lemma {:induction false} SaysCollects<J>(codec: Codec<J>, ms: seq<OMessage<J>>)
    requires forall i :: 0 <= i < |ms| ==> MessageBlocks(codec, ms[i]).Ok?
    ensures Collect(codec, Wrap(ms)).Ok?
    ensures Collect(codec, Wrap(ms)).value.system == Systems(ms)
    decreases |ms|
  {
    if ms != [] {
      assert Wrap(ms)[..|ms| - 1] == Wrap(ms[..|ms| - 1]);
      SaysCollects(codec, ms[..|ms| - 1]);
    }
  }

  function Systems<J>(ms: seq<OMessage<J>>): seq<string> {
    if ms == [] then [] else Systems(ms[..|ms| - 1]) + SystemTexts(ms[|ms| - 1])
  }

  lemma {:induction false} NoSystems<J>(before: seq<OMessage<J>>, ms: seq<OMessage<J>>)
    requires forall i :: 0 <= i < |ms| ==> Speaker(ms[i].role).Some?
    ensures Systems(before + ms) == Systems(before)
    decreases |ms|
  {
    if ms == [] {
      assert before + ms == before;
    } else {
      assert (before + ms)[..|before + ms| - 1] == before + ms[..|ms| - 1];
      NoSystems(before, ms[..|ms| - 1]);
    }
  }

  // ---------------------------------------------------------------- user turns

  /** The content parts of a run of text and images. */
  function RunParts<J>(run: seq<ABlock<J>>): seq<OPart>
    requires forall i :: 0 <= i < |run| ==> run[i].AText? || run[i].AImage?
  {
    seq(|run|, i requires 0 <= i < |run| => PartOf(run[i]))
  }

  function PartOf<J>(b: ABlock<J>): OPart
    requires b.AText? || b.AImage?
  {
    if b.AText? then OTextPart(b.text) else OImagePart(UrlObject(DataUrl(b.mediaType, b.data)), "")
  }

  /** A run under way: its texts, and whether it has an image. */
  predicate Run<J>(run: seq<ABlock<J>>, texts: nat, rich: bool) {
    && (forall i :: 0 <= i < |run| ==> NormalUserBlock(run[i]) && !run[i].AToolResult?)
    && (!rich ==> texts == |run| && forall i :: 0 <= i < |run| ==> run[i].AText?)
  }

  lemma PartBack<J>(b: ABlock<J>)
    requires NormalUserBlock(b) && (b.AText? || b.AImage?)
    ensures PartBlock<J>(PartOf(b)) == Ok([b])
  {
    if b.AImage? {
      DataUrlRoundTrip(b.mediaType, b.data);
      ImageBack<J>(PartOf(b), b.mediaType, b.data);
    }
  }

  lemma ImageBack<J>(p: OPart, mediaType: string, data: string)
    requires p.OImagePart? && p.image.UrlObject? && ParseImageUrl(p.image.url) == InlineImage(mediaType, data)
    ensures PartBlock<J>(p) == Ok([AImage(mediaType, data)])
  {
  }

  lemma PartBlocksSnoc<J>(parts: seq<OPart>, p: OPart, before: seq<ABlock<J>>, b: ABlock<J>)
    requires PartBlocks<J>(parts) == Ok(before) && PartBlock<J>(p) == Ok([b])
    ensures PartBlocks<J>(parts + [p]) == Ok(before + [b])
  {
    WithoutLast(parts, p);
  }

  lemma {:induction false} PartsBack<J>(run: seq<ABlock<J>>)
    requires Run(run, |run|, true)
    ensures PartBlocks<J>(RunParts(run)) == Ok(run)
    decreases |run|
  {
    if run != [] {
      var front, last := run[..|run| - 1], run[|run| - 1];
      PartsBack(front);
      PartBack(last);
      PartBlocksSnoc(RunParts(front), PartOf(last), front, last);
      RunPartsSnoc(front, last);
      LastOf(run);
    }
  }

  lemma RunPartsSnoc<J>(front: seq<ABlock<J>>, last: ABlock<J>)
    requires forall b :: b in front + [last] ==> b.AText? || b.AImage?
    ensures forall i :: 0 <= i < |front| ==> front[i] in front + [last]
    ensures last in front + [last]
    ensures RunParts(front + [last]) == RunParts(front) + [PartOf(last)]
  {
  }

  lemma OneText<J>(run: seq<ABlock<J>>, text: string)
    requires |run| == 1 && run[0] == AText(text) && !Blank(text)
    ensures run == [AText(text)] && PartTexts(RunParts(run)) == [text]
  {
    var parts := RunParts(run);
    assert parts[..0] == [] && PartText(parts[0]) == text;
  }

  /** A run with an image is a message of parts. */
  lemma RichBack<J>(codec: Codec<J>, run: seq<ABlock<J>>)
    requires Run(run, |run|, true)
    ensures Says(codec, [UserMessage(OParts(RunParts(run)))], SaidBlocks("user", run))
  {
    PartsBack(run);
    SaysOne(codec, UserMessage(OParts(RunParts(run))), "user", run);
  }

  lemma PlainBack<J>(codec: Codec<J>, text: string)
    requires !Blank(text)
    ensures Says(codec, [UserMessage(OString(text))], SaidBlocks("user", [AText(text)]))
  {
    SaysOne(codec, UserMessage(OString(text)), "user", [AText(text)]);
  }

  lemma FlushBack<J>(codec: Codec<J>, run: seq<ABlock<J>>, texts: nat, rich: bool)
    requires Run(run, texts, rich) && (rich || texts <= 1)
    ensures Says(codec, A.Flush<J>(RunParts(run), rich), SaidBlocks("user", run))
  {
    if run != [] {
      if rich {
        RichBack(codec, run);
      } else {
        assert |run| == 1 && NormalUserBlock(run[0]);
        OneText(run, run[0].text);
        PlainBack(codec, run[0].text);
      }
    }
  }

  lemma ResultBack<J>(codec: Codec<J>, b: ABlock<J>)
    requires b.AToolResult? && NormalUserBlock(b)
    ensures Says(codec, [A.ResultMessage(b)], SaidBlocks("user", [b]))
  {
    SaysOne(codec, A.ResultMessage(b), "user", [b]);
  }

  /** A run ends at a tool result. */
  lemma ResultStepBack<J>(codec: Codec<J>, b: ABlock<J>, rest: seq<ABlock<J>>, run: seq<ABlock<J>>,
                          texts: nat, rich: bool)
    requires Run(run, texts, rich) && (rich || texts <= 1)
    requires b.AToolResult? && NormalUserBlock(b)
    requires Says(codec, A.UserFrom(rest, [], false), SaidBlocks("user", rest))
    ensures Says(codec, A.Flush<J>(RunParts(run), rich) + [A.ResultMessage(b)] + A.UserFrom(rest, [], false),
                 SaidBlocks("user", run + [b] + rest))
  {
    var flushed := A.Flush<J>(RunParts(run), rich);
    FlushBack(codec, run, texts, rich);
    ResultBack(codec, b);
    SaysAppend(codec, flushed, SaidBlocks("user", run), [A.ResultMessage(b)], SaidBlocks("user", [b]));
    SaidJoin("user", run, [b]);
    SaysAppend(codec, flushed + [A.ResultMessage(b)], SaidBlocks("user", run + [b]),
               A.UserFrom(rest, [], false), SaidBlocks("user", rest));
    SaidJoin("user", run + [b], rest);
  }

  lemma {:induction false} UserBack<J>(codec: Codec<J>, blocks: seq<ABlock<J>>, run: seq<ABlock<J>>,
                                       texts: nat, rich: bool)
    requires Run(run, texts, rich) && NormalRuns(blocks, texts, rich)
    requires forall i :: 0 <= i < |blocks| ==> NormalUserBlock(blocks[i])
    ensures Says(codec, A.UserFrom(blocks, RunParts(run), rich), SaidBlocks("user", run + blocks))
    decreases |blocks|
  {
    if blocks == [] {
      FlushBack(codec, run, texts, rich);
      assert run + blocks == run;
    } else {
      var b, rest := blocks[0], blocks[1..];
      assert NormalUserBlock(b);
      assert run + [b] + rest == run + blocks;
      if b.AToolResult? {
        UserBack(codec, rest, [], 0, false);
        assert RunParts<J>([]) == [] && [] + rest == rest;
        ResultStepBack(codec, b, rest, run, texts, rich);
      } else {
        var rich' := rich || b.AImage?;
        assert RunParts(run + [b]) == RunParts(run) + [RunParts([b])[0]];
        assert A.UserFrom(blocks, RunParts(run), rich) == A.UserFrom(rest, RunParts(run + [b]), rich');
        UserBack(codec, rest, run + [b], if b.AText? then texts + 1 else texts, rich');
      }
    }
  }

  // ---------------------------------------------------------------- assistant turns

  lemma CallBack<J(!new)>(codec: Codec<J>, use: ABlock<J>)
    requires Lawful(codec) && NormalToolUse(use)
    ensures A.AssistantCall(codec, use).Object? && CallBlock(codec, A.AssistantCall(codec, use).value) == Ok(use)
  {
    assert codec.decode(codec.encode(use.input.value)) == Some(use.input.value);
  }

  lemma CallBlocksSnoc<J>(codec: Codec<J>, calls: seq<Entry<OCall<J>>>, call: OCall<J>, before: seq<ABlock<J>>,
                          use: ABlock<J>)
    requires CallBlocks(codec, calls) == Ok(before) && CallBlock(codec, call) == Ok(use)
    ensures CallBlocks(codec, calls + [Object(call)]) == Ok(before + [use])
  {
    WithoutLast(calls, Object(call));
  }

  lemma {:induction false} CallsBack<J(!new)>(codec: Codec<J>, uses: seq<ABlock<J>>)
    requires Lawful(codec) && forall i :: 0 <= i < |uses| ==> NormalToolUse(uses[i])
    ensures CallBlocks(codec, A.AssistantCalls(codec, uses)) == Ok(uses)
    ensures A.AssistantTexts(uses) == []
    decreases |uses|
  {
    if uses != [] {
      var front, last := uses[..|uses| - 1], uses[|uses| - 1];
      CallsBack(codec, front);
      assert NormalToolUse(last);
      CallBack(codec, last);
      CallBlocksSnoc(codec, A.AssistantCalls(codec, front), A.AssistantCall(codec, last).value, front, last);
      LastOf(uses);
    }
  }

  lemma {:induction false} TextFirst<J>(codec: Codec<J>, text: ABlock<J>, uses: seq<ABlock<J>>)
    requires text.AText? && text.text != ""
    ensures A.AssistantTexts([text] + uses) == [text.text] + A.AssistantTexts(uses)
    ensures A.AssistantCalls(codec, [text] + uses) == A.AssistantCalls(codec, uses)
    decreases |uses|
  {
    var blocks := [text] + uses;
    if uses == [] {
      assert blocks[..0] == [] && blocks[0] == text;
      assert A.AssistantTexts(blocks) == A.AssistantTexts(blocks[..0]) + [text.text];
      assert A.AssistantCalls(codec, blocks) == A.AssistantCalls(codec, blocks[..0]) + [];
    } else {
      TextFirst(codec, text, uses[..|uses| - 1]);
      assert blocks[..|blocks| - 1] == [text] + uses[..|uses| - 1];
    }
  }

  lemma AssistantBack<J(!new)>(codec: Codec<J>, blocks: seq<ABlock<J>>)
    requires Lawful(codec) && NormalAssistant(blocks)
    ensures Says(codec, [A.Assistant(codec, ABlocks(blocks))], SaidBlocks("assistant", blocks))
  {
    var m := A.Assistant(codec, ABlocks(blocks));
    if blocks != [] && blocks[0].AText? {
      var uses := blocks[1..];
      assert blocks == [blocks[0]] + uses;
      TextFirst(codec, blocks[0], uses);
      CallsBack(codec, uses);
      assert A.AssistantTexts(blocks) == [blocks[0].text];
    } else {
      CallsBack(codec, blocks);
      assert [] + blocks == blocks;
    }
    SaysOne(codec, m, "assistant", blocks);
  }

  // ---------------------------------------------------------------- whole conversations

  lemma TurnBack<J(!new)>(codec: Codec<J>, t: AMessage<J>)
    requires Lawful(codec) && NormalTurn(t) && t.content.blocks != []
    ensures Says(codec, A.Turn(codec, t), TurnSays(t))
  {
    if t.role == "assistant" {
      AssistantBack(codec, t.content.blocks);
    } else {
      UserBack(codec, t.content.blocks, [], 0, false);
      assert RunParts<J>([]) == [] && [] + t.content.blocks == t.content.blocks;
      assert |TurnSays(t)| > 0;
      assert MessagesSay(codec, Wrap<OMessage<J>>([])) == [];
    }
  }

  lemma {:induction false} TurnsBack<J(!new)>(codec: Codec<J>, ts: seq<AMessage<J>>)
    requires Lawful(codec)
    requires forall i :: 0 <= i < |ts| ==> NormalTurn(ts[i]) && ts[i].content.blocks != []
    ensures Says(codec, A.Turns(codec, ts), TurnsSay(ts))
    decreases |ts|
  {
    if ts != [] {
      TurnsBack(codec, ts[..|ts| - 1]);
      TurnBack(codec, ts[|ts| - 1]);
      SaysAppend(codec, A.Turns(codec, ts[..|ts| - 1]), TurnsSay(ts[..|ts| - 1]),
                 A.Turn(codec, ts[|ts| - 1]), TurnSays(ts[|ts| - 1]));
    }
  }

  lemma {:induction false} NobodyIsSystem<J>(codec: Codec<J>, ts: seq<AMessage<J>>)
    ensures forall i :: 0 <= i < |A.Turns(codec, ts)| ==> Speaker(A.Turns(codec, ts)[i].role).Some?
    decreases |ts|
  {
    if ts != [] {
      NobodyIsSystem(codec, ts[..|ts| - 1]);
      var t := ts[|ts| - 1];
      if t.content.ABlocks? {
        UserSpeaks<J>(t.content.blocks, [], false);
      }
    }
  }

  lemma {:induction false} UserSpeaks<J>(blocks: seq<ABlock<J>>, parts: seq<OPart>, rich: bool)
    ensures forall i :: 0 <= i < |A.UserFrom(blocks, parts, rich)| ==>
      Speaker(A.UserFrom(blocks, parts, rich)[i].role) == Some("user")
    decreases |blocks|
  {
    if blocks != [] {
      var rest := blocks[1..];
      match blocks[0]
      case AText(t) => UserSpeaks(rest, if t == "" then parts else parts + [OTextPart(t)], rich);
      case AImage(m, d) =>
        if m == "" || d == "" {
          UserSpeaks(rest, parts, rich);
        } else {
          UserSpeaks(rest, parts + [OImagePart(UrlObject(DataUrl(m, d)), "")], true);
        }
      case AToolResult(_, _, _) => UserSpeaks(rest, [], false);
      case _ => UserSpeaks(rest, parts, rich);
    }
  }

  /** The system prompt as a request carries it: none, or a non-blank string. */
  predicate NormalSystem<J>(system: AContent<J>) {
    system.ANone? || (system.AString? && !Blank(system.text))
  }

  function SystemText<J>(system: AContent<J>): string {
    if system.AString? then system.text else ""
  }

  lemma SystemBack<J>(codec: Codec<J>, system: AContent<J>)
    requires NormalSystem(system)
    ensures Says(codec, A.SystemMessage(system), [])
    ensures Join(Systems(A.SystemMessage(system)), "\n\n") == SystemText(system)
  {
    var ms := A.SystemMessage(system);
    if system.AString? {
      var m := ms[0];
      assert ms == [m] && m.role == "system";
      assert Wrap(ms)[..0] == [] && ms[..0] == [];
      assert MessagesSay(codec, Wrap(ms)) == MessagesSay(codec, Wrap(ms)[..0]) + MessageSays(codec, Wrap(ms)[0]);
      assert Systems(ms) == Systems(ms[..0]) + SystemTexts(m);
      assert system.text != "";
      assert Systems(ms) == [system.text];
    }
  }

  lemma ConversationSays<J(!new)>(codec: Codec<J>, system: AContent<J>, ts: seq<AMessage<J>>)
    requires Lawful(codec) && NormalSystem(system) && NormalConversation(ts)
    ensures var ms := A.SystemMessage(system) + A.Turns(codec, ts);
      Says(codec, ms, TurnsSay(ts)) && Join(Systems(ms), "\n\n") == SystemText(system)
  {
    var head, body := A.SystemMessage(system), A.Turns(codec, ts);
    SystemBack(codec, system);
    TurnsBack(codec, ts);
    SaysAppend(codec, head, [], body, TurnsSay(ts));
    assert [] + TurnsSay(ts) == TurnsSay(ts);
    NobodyIsSystem(codec, ts);
    NoSystems(head, body);
  }

  /** Messages that say what canonical turns say are translated to those turns. */
  lemma SaysTranslates<J>(codec: Codec<J>, ms: seq<OMessage<J>>, ts: seq<AMessage<J>>)
    requires Canonical(ts) && ts != [] && Says(codec, ms, TurnsSay(ts))
    ensures Translate(codec, Wrap(ms)) == Ok((Join(Systems(ms), "\n\n"), ts))
  {
    SaysCollects(codec, ms);
    CollectCanonical(codec, Wrap(ms));
    GroupOfTurns(ts);
    GroupOfTurns(Collect(codec, Wrap(ms)).value.turns);
  }

  lemma ForwardSucceeds<J>(codec: Codec<J>, system: AContent<J>, ts: seq<AMessage<J>>)
    requires ts != []
    ensures A.Translate(codec, system, Wrap(ts)) == Ok(A.SystemMessage(system) + A.Turns(codec, ts))
  {
    assert A.Values(Wrap(ts)) == ts;
  }

  /** MAIN RESULT. Every conversation in normal form, with its system prompt, comes back from the
      translation to OpenAI messages exactly as it was. */
  lemma ConversationRoundTrips<J(!new)>(codec: Codec<J>, system: AContent<J>, ts: seq<AMessage<J>>)
    requires Lawful(codec) && NormalSystem(system) && NormalConversation(ts)
    ensures A.Translate(codec, system, Wrap(ts)).Ok?
    ensures Translate(codec, Wrap(A.Translate(codec, system, Wrap(ts)).value))
         == Ok((SystemText(system), ts))
  {
    ForwardSucceeds(codec, system, ts);
    ConversationSays(codec, system, ts);
    SaysTranslates(codec, A.SystemMessage(system) + A.Turns(codec, ts), ts);
  }
}
