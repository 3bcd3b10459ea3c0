/** Requests of the two protocols as decoded JSON, malformed entries included. */
module Messages {
  import opened Text

  /** JSON encoding of tool inputs, and the id generated when one is missing. */
  datatype Codec<!J> = Codec(encode: J -> string, decode: string -> Option<J>, emptyObject: J, newId: string)

  /** What is asked of the JSON library: decoding what was encoded gives it back, and `{}` is the
      empty object. A generated id is not blank. */
  ghost predicate Lawful<J(!new)>(c: Codec<J>) {
    && (forall x: J :: c.decode(c.encode(x)) == Some(x) && !Blank(c.encode(x)))
    && c.decode("{}") == Some(c.emptyObject)
    && !Blank(c.newId)
  }

  /** An element of a JSON array that should be an object. */
  datatype Entry<M> = Object(value: M) | NotObject

  // ---------------------------------------------------------------- Anthropic

  datatype ToolInput<J> = NoInput | TextInput(text: string) | ObjectInput(value: J)

  /** Content of a tool result: absent, a string, the texts of its parts, or other JSON. */
  datatype ResultContent =
    | NoResult
    | StringResult(text: string)
    | PartsResult(texts: seq<string>)
    | JsonResult(encoded: string)

  datatype ABlock<J> =
    | AText(text: string)
    | AImage(mediaType: string, data: string)        // a base64 source
    | AUrlImage(url: string)                         // a url source
    | AToolUse(id: string, name: string, input: ToolInput<J>)
    | AToolResult(toolUseId: string, content: ResultContent, isError: bool)
    | AOther                                         // another type, or not an object

  datatype AContent<J> = AString(text: string) | ABlocks(blocks: seq<ABlock<J>>) | ANone

  datatype AMessage<J> = AMessage(role: string, content: AContent<J>)

  // ---------------------------------------------------------------- OpenAI

  /** An `image_url`: missing or something else, a string, or the url of an object. */
  datatype UrlField = NoUrl | UrlString(url: string) | UrlObject(url: string)

  datatype OPart =
    | OTextPart(text: string)
    | OImagePart(image: UrlField, text: string)
    | OOtherPart(kind: string, text: string)         // any object part may have a text
    | ONotObject

  datatype OContent = OString(text: string) | OParts(parts: seq<OPart>) | ONone | OOtherContent

  datatype Arguments<J> = NoArguments | ArgumentsText(text: string) | ArgumentsObject(value: J) | OtherArguments

  datatype OCall<J> = OCall(id: string, name: string, arguments: Arguments<J>)

  /** `otherCalls`: there are `tool_calls` that are no array. */
  datatype OMessage<J> = OMessage(
    role: string, content: OContent, toolCalls: seq<Entry<OCall<J>>>, toolCallId: string, isError: bool,
    otherCalls: bool := false)

  function UserMessage<J>(content: OContent): OMessage<J> {
    OMessage("user", content, [], "", false)
  }

  function PartText(p: OPart): string {
    if p.ONotObject? then "" else p.text
  }

  /** The texts of parts, whatever their kind. */
  function PartTexts(parts: seq<OPart>): seq<string> {
    if parts == [] then []
    else
      PartTexts(parts[..|parts| - 1])
      + if PartText(parts[|parts| - 1]) == "" then [] else [PartText(parts[|parts| - 1])]
  }

  /** What each part has to say; one that is no object has nothing. */
  function Words(parts: seq<OPart>): seq<string> {
    seq(|parts|, i requires 0 <= i < |parts| => if parts[i].ONotObject? then "" else parts[i].text)
  }

  /** The text of a content: its parts' texts on lines of their own. */
  function Reading(c: OContent): string {
    match c
    case OString(t) => t
    case OParts(parts) => Lines(Words(parts))
    case _ => ""
  }

  lemma PartTextsRead(parts: seq<OPart>)
    ensures Join(PartTexts(parts), "\n") == Reading(OParts(parts))
  {
    PartTextsAre(parts, Words(parts));
    JoinIsLines(Words(parts));
  }

  lemma {:induction false} PartTextsAre(parts: seq<OPart>, texts: seq<string>)
    requires |texts| == |parts| && forall i :: 0 <= i < |parts| ==> texts[i] == PartText(parts[i])
    ensures PartTexts(parts) == NonEmpty(texts)
    decreases |parts|
  {
    if parts != [] {
      PartTextsAre(parts[..|parts| - 1], texts[..|parts| - 1]);
      NonEmptySnoc(texts[..|parts| - 1], texts[|parts| - 1]);
      LastOf(texts);
    }
  }

  // ---------------------------------------------------------------- transcripts

  /** One block, and who says it. */
  datatype Said<B> = Said(role: string, block: B)

  function SaidBlocks<B>(role: string, blocks: seq<B>): seq<Said<B>> {
    seq(|blocks|, i requires 0 <= i < |blocks| => Said(role, blocks[i]))
  }

  // ---------------------------------------------------------------- data URLs

  /** The data URL of a base64 image (section 3 of RFC 2397). */
  function DataUrl(mediaType: string, data: string): string {
    "data:" + mediaType + ";base64," + data
  }

  /** The first comma of a string, or its length. */
  function FirstComma(s: string): (i: nat)
    ensures i <= |s|
    ensures i < |s| ==> s[i] == ','
    ensures forall j :: 0 <= j < i ==> s[j] != ','
  {
    if s == "" || s[0] == ',' then 0 else 1 + FirstComma(s[1..])
  }

  predicate HasPrefix(s: string, prefix: string) {
    prefix <= s
  }

  predicate HasSuffix(s: string, suffix: string) {
    |suffix| <= |s| && s[|s| - |suffix|..] == suffix
  }

  datatype ImageUrl = NoImage | RemoteImage(url: string) | InlineImage(mediaType: string, data: string) | BadImage

  /** `openAIImageURLToAnthropic`: any other URL is kept as it is. */
  function ParseImageUrl(url: string): ImageUrl {
    if Blank(url) then NoImage
    else if !HasPrefix(url, "data:") then RemoteImage(url)
    else
      var rest := url[5..];
      var i := FirstComma(rest);
      var meta := rest[..i];
      if i == |rest| || !HasSuffix(meta, ";base64") || |meta| == 7 || i + 1 == |rest| then BadImage
      else InlineImage(meta[..|meta| - 7], rest[i + 1..])
  }

  lemma FirstCommaIs(a: string, b: string)
    ensures var i := FirstComma(a + [','] + b); if ',' in a then i < |a| else i == |a|
  {
    var s := a + [','] + b;
    assert s[|a|] == ',';
    if ',' in a {
      var j :| 0 <= j < |a| && a[j] == ',';
      assert s[j] == ',';
    } else {
      assert forall j :: 0 <= j < |a| ==> s[j] == a[j];
    }
  }

  lemma AfterScheme(mediaType: string, data: string)
    ensures var url := DataUrl(mediaType, data);
      !Blank(url) && HasPrefix(url, "data:") && url[5..] == mediaType + ";base64" + [','] + data
  {
    var url := DataUrl(mediaType, data);
    assert url[..5] == "data:";
    assert url[0] in url && url[0] == 'd';
  }

  lemma Halves(a: string, c: char, b: string, n: nat)
    requires n <= |a|
    ensures var s := a + [c] + b; s[..|a|] == a && s[|a| + 1..] == b && a == a[..n] + a[n..]
  {
  }

  lemma BaseEnding(mediaType: string)
    ensures var meta := mediaType + ";base64";
      |meta| == |mediaType| + 7 && HasSuffix(meta, ";base64") && meta[..|meta| - 7] == mediaType
  {
  }

  /** Printing a data URL and parsing it gives the image back exactly when its media type has no
      comma: the parser cuts at the first one. */
  lemma DataUrlRoundTrip(mediaType: string, data: string)
    requires mediaType != "" && data != ""
    ensures ParseImageUrl(DataUrl(mediaType, data)) == InlineImage(mediaType, data)
        <==> ',' !in mediaType
  {
    var meta := mediaType + ";base64";
    AfterScheme(mediaType, data);
    BaseEnding(mediaType);
    CommaInMeta(mediaType);
    FirstCommaIs(meta, data);
    Halves(meta, ',', data, |mediaType|);
    if ',' in mediaType {
      CutShort(meta + [','] + data, mediaType, FirstComma(meta + [','] + data));
    }
  }

  /** MAIN RESULT. What an image URL is, for every string: no image if blank, a remote image unless it
      begins with `data:`, and an inline one exactly if it is the data URL of a media type without
      comma and of data; any other is refused. */
  lemma ParsesExactly(url: string, mediaType: string, data: string)
    ensures ParseImageUrl(url) == NoImage <==> Blank(url)
    ensures ParseImageUrl(url) == RemoteImage(url) <==> !Blank(url) && !("data:" <= url)
    ensures ParseImageUrl(url) == InlineImage(mediaType, data) <==>
      url == "data:" + mediaType + ";base64," + data && mediaType != "" && data != "" && ',' !in mediaType
  {
    if ParseImageUrl(url) == InlineImage(mediaType, data) {
      PrintsBack(url);
    }
    if mediaType != "" && data != "" {
      DataUrlRoundTrip(mediaType, data);
    }
  }

  /** An inline image is printed as it was written. */
  lemma PrintsBack(url: string)
    requires ParseImageUrl(url).InlineImage?
    ensures var image := ParseImageUrl(url);
      url == "data:" + image.mediaType + ";base64," + image.data
      && image.mediaType != "" && image.data != "" && ',' !in image.mediaType
  {
    var rest := url[5..];
    var i := FirstComma(rest);
    InlineParts(url, rest, i, rest[..i]);
    assert url == "data:" + rest;
    Reassembled(rest, i, rest[..i][..i - 7], rest[i + 1..]);
  }

  lemma InlineParts(url: string, rest: string, i: nat, meta: string)
    requires ParseImageUrl(url).InlineImage? && rest == url[5..] && i == FirstComma(rest) && meta == rest[..i]
    ensures "data:" <= url && 7 < i && i + 1 < |rest| && HasSuffix(meta, ";base64")
    ensures ParseImageUrl(url) == InlineImage(meta[..i - 7], rest[i + 1..])
  {
  }

  lemma Reassembled(rest: string, i: nat, mediaType: string, data: string)
    requires 7 < i < |rest| && rest[i] == ',' && HasSuffix(rest[..i], ";base64")
    requires mediaType == rest[..i][..i - 7] && data == rest[i + 1..]
    requires forall j :: 0 <= j < i ==> rest[j] != ','
    ensures "data:" + rest == "data:" + mediaType + ";base64," + data && mediaType != "" && ',' !in mediaType
  {
    CutAt(rest, i);
    EndsIn(rest[..i], ";base64");
    NoCommaBefore(rest, i, i - 7);
    assert rest == mediaType + ";base64" + ("," + data);
    assert ";base64" + ("," + data) == ";base64," + data;
  }

  lemma CutAt(s: string, i: nat)
    requires i < |s| && s[i] == ','
    ensures s == s[..i] + ("," + s[i + 1..])
  {
  }

  lemma EndsIn(s: string, suffix: string)
    requires HasSuffix(s, suffix)
    ensures s == s[..|s| - |suffix|] + suffix
  {
  }

  lemma NoCommaBefore(s: string, i: nat, n: nat)
    requires n <= i <= |s| && forall j :: 0 <= j < i ==> s[j] != ','
    ensures ',' !in s[..i][..n]
  {
  }

  lemma CommaInMeta(mediaType: string)
    ensures ',' in mediaType + ";base64" <==> ',' in mediaType
  {
  }

  /** A media type that ends before the real one does is another. */
  lemma CutShort(rest: string, mediaType: string, i: nat)
    requires i < |mediaType| + 7 && i <= |rest|
    ensures |rest[..i]| >= 7 ==> rest[..i][..|rest[..i]| - 7] != mediaType
  {
  }
}
