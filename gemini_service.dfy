/** The request/response adapter around the image-generation service
    (services/geminiService.ts): how a request is assembled from the concept,
    the reference images and one item, and how the image is taken out of the
    reply. The service itself is the parameter `sdk`. */
module GeminiService {
  import opened Wrappers
  import opened Seqs
  import opened JsStrings

  /** The image subtypes whose data-URI prefix is stripped, in the order the
      pattern tries them. */
  const ImageSubtypes: seq<string> := ["png", "jpeg", "jpg", "webp"]

  /** The MIME type every reference image is declared with. */
  const PngMime: string := "image/png"

  /** The prefix put in front of the returned image data. */
  const PngDataUriPrefix: string := "data:image/png;base64,"

  /** The message of the error thrown when the reply holds no image. */
  const NoImageMessage: string := "No image generated."

  function DataUriPrefix(subtype: string): string {
    "data:image/" + subtype + ";base64,"
  }

  /** Removes the first prefix of `subtypes` that `s` starts with, if any. */
  function StripFirstOf(s: string, subtypes: seq<string>): (r: string)
    ensures r == s || exists t :: t in subtypes && s == DataUriPrefix(t) + r
    ensures (forall t :: t in subtypes ==> !(DataUriPrefix(t) <= s)) ==> r == s
  {
    if subtypes == [] then s
    else if DataUriPrefix(subtypes[0]) <= s then
      assert s == DataUriPrefix(subtypes[0]) + s[|DataUriPrefix(subtypes[0])|..];
      s[|DataUriPrefix(subtypes[0])|..]
    else StripFirstOf(s, subtypes[1..])
  }

  /** `base64.replace(/^data:image\/(png|jpeg|jpg|webp);base64,/, '')`: drops
      one leading data-URI prefix of a known subtype; any other string comes
      back unchanged. */
  function StripDataUriPrefix(s: string): (r: string)
    ensures r == s || exists t :: t in ImageSubtypes && s == DataUriPrefix(t) + r
    ensures (forall t :: t in ImageSubtypes ==> !(DataUriPrefix(t) <= s)) ==> r == s
  {
    StripFirstOf(s, ImageSubtypes)
  }

  /** No two of the known prefixes can both start a string: the subtypes
      differ in one of their first three letters. */
  lemma PrefixesExclusive(u: string, t: string, data: string)
    requires u in ImageSubtypes && t in ImageSubtypes && u != t
    ensures !(DataUriPrefix(u) <= DataUriPrefix(t) + data)
  {
    var s := DataUriPrefix(t) + data;
    var p := DataUriPrefix(u);
    assert p[11] == u[0] && p[12] == u[1] && p[13] == u[2];
    assert s[11] == t[0] && s[12] == t[1] && s[13] == t[2];
    assert u[0] != t[0] || u[1] != t[1] || u[2] != t[2];
  }

  lemma {:induction false} StripFirstOfPrefixed(t: string, data: string, subtypes: seq<string>)
    requires t in subtypes
    requires forall u :: u in subtypes && u != t ==> !(DataUriPrefix(u) <= DataUriPrefix(t) + data)
    ensures StripFirstOf(DataUriPrefix(t) + data, subtypes) == data
  {
    var s := DataUriPrefix(t) + data;
    if subtypes[0] == t {
      assert s[|DataUriPrefix(t)|..] == data;
    } else {
      assert !(DataUriPrefix(subtypes[0]) <= s);
      StripFirstOfPrefixed(t, data, subtypes[1..]);
    }
  }

  /** Stripping undoes exactly one prefix: the data behind it is returned
      whole, even when it starts with another prefix. */
  lemma StripPrefixed(t: string, data: string)
    requires t in ImageSubtypes
    ensures StripDataUriPrefix(DataUriPrefix(t) + data) == data
  {
    forall u | u in ImageSubtypes && u != t
      ensures !(DataUriPrefix(u) <= DataUriPrefix(t) + data)
    {
      PrefixesExclusive(u, t, data);
    }
    StripFirstOfPrefixed(t, data, ImageSubtypes);
  }

  // ---- the outbound request ----

  /** One entry of the request's `parts` list. */
  datatype Part = InlineImage(mimeType: string, data: string) | TextPart(text: string)

  // The prompt's fixed pieces, as the template literals lay them out.
  const PromptOpening: string := "Create a high-quality emoji/sticker.\n    \n    Overall Concept: "
  const PromptMiddle: string := "\n    \n    Specific Emoji Description: "
  const PromptHeadEnd: string := "\n    "
  const TextOpening: string := "\nText Requirement: The text \""
  const TextClosing: string := "\" MUST be clearly visible and integrated into the emoji design."
  const StyleLine: string :=
    "\nStyle: Vector art, flat design, vibrant colors, white sticker border, expressive, high resolution (1024x1024)."

  /** The opening lines of the prompt. */
  function PromptHead(concept: string, description: string): string {
    PromptOpening + concept + PromptMiddle + description + PromptHeadEnd
  }

  /** The line asking for the item's text to be drawn. */
  function TextRequirement(itemText: string): string {
    TextOpening + itemText + TextClosing
  }

  /** `itemText && itemText.trim().length > 0`. */
  predicate WantsText(itemText: Option<string>) {
    itemText.Some? && |Trim(itemText.value)| > 0
  }

  /** The prompt sent for one item. */
  function Prompt(concept: string, description: string, itemText: Option<string>): string {
    if WantsText(itemText) then PromptHead(concept, description) + TextRequirement(itemText.value) + StyleLine
    else PromptHead(concept, description) + StyleLine
  }

  /** The inline-image parts, one per reference image, prefix stripped. */
  function InlineParts(referenceImages: seq<string>): (r: seq<Part>)
    ensures |r| == |referenceImages|
    ensures forall i :: 0 <= i < |r| ==> r[i] == InlineImage(PngMime, StripDataUriPrefix(referenceImages[i]))
  {
    if referenceImages == [] then []
    else [InlineImage(PngMime, StripDataUriPrefix(referenceImages[0]))] + InlineParts(referenceImages[1..])
  }

  /** The whole `parts` list: the reference images in order, then the prompt. */
  function RequestParts(concept: string, referenceImages: seq<string>, description: string,
                        itemText: Option<string>): seq<Part> {
    InlineParts(referenceImages) + [TextPart(Prompt(concept, description, itemText))]
  }

  /** The prompt, extended line by line as the adapter does. */
  method ComposePrompt(concept: string, description: string, itemText: Option<string>)
    returns (prompt: string)
    ensures prompt == Prompt(concept, description, itemText)
  {
    prompt := PromptHead(concept, description);
    if itemText.Some? && |Trim(itemText.value)| > 0 {
      prompt := prompt + TextRequirement(itemText.value);
    }
    prompt := prompt + StyleLine;
  }

  /** Builds the request as the adapter does: one push per reference image,
      then the prompt extended line by line, pushed last. */
  method BuildRequest(concept: string, referenceImages: seq<string>, description: string,
                      itemText: Option<string>) returns (parts: seq<Part>)
    ensures parts == RequestParts(concept, referenceImages, description, itemText)
  {
    parts := [];
    for i := 0 to |referenceImages|
      invariant |parts| == i
      invariant forall j :: 0 <= j < i ==> parts[j] == InlineImage(PngMime, StripDataUriPrefix(referenceImages[j]))
    {
      var cleanBase64 := StripDataUriPrefix(referenceImages[i]);
      parts := parts + [InlineImage(PngMime, cleanBase64)];
    }
    assert parts == InlineParts(referenceImages);
    var prompt := ComposePrompt(concept, description, itemText);
    parts := parts + [TextPart(prompt)];
  }

  /** The request holds one image part per reference image, in order, each
      declared as PNG, and exactly one text part, the last. */
  lemma RequestShape(concept: string, referenceImages: seq<string>, description: string,
                     itemText: Option<string>)
    ensures var parts := RequestParts(concept, referenceImages, description, itemText);
      && |parts| == |referenceImages| + 1
      && (forall i :: 0 <= i < |referenceImages| ==>
            parts[i].InlineImage? && parts[i].mimeType == PngMime
            && parts[i].data == StripDataUriPrefix(referenceImages[i]))
      && parts[|referenceImages|] == TextPart(Prompt(concept, description, itemText))
  {
  }

  /** `a` occurs somewhere inside `b`. */
  predicate IsSubstring(a: string, b: string) {
    exists k | 0 <= k <= |b| :: a <= b[k..]
  }

  /** `b` ends with `suffix`. */
  predicate EndsWith(b: string, suffix: string) {
    |suffix| <= |b| && b[|b| - |suffix|..] == suffix
  }

  /** The concept and the description sit inside the prompt whatever the
      surrounding pieces are. */
  lemma PiecesInside(o: string, c: string, m: string, d: string, e: string, x: string, st: string)
    ensures IsSubstring(c, o + c + m + d + e + x + st)
    ensures IsSubstring(d, o + c + m + d + e + x + st)
  {
    var s := o + c + m + d + e + x + st;
    assert s == o + (c + (m + d + e + x + st));
    assert c <= s[|o|..];
    assert s == (o + c + m) + (d + (e + x + st));
    assert d <= s[|o + c + m|..];
  }

  /** The prompt always names the concept and the item description. */
  lemma PromptMentions(concept: string, description: string, itemText: Option<string>)
    ensures IsSubstring(concept, Prompt(concept, description, itemText))
    ensures IsSubstring(description, Prompt(concept, description, itemText))
  {
    if WantsText(itemText) {
      PiecesInside(PromptOpening, concept, PromptMiddle, description, PromptHeadEnd,
        TextRequirement(itemText.value), StyleLine);
    } else {
      PiecesInside(PromptOpening, concept, PromptMiddle, description, PromptHeadEnd, "", StyleLine);
      assert PromptHead(concept, description) + "" == PromptHead(concept, description);
    }
  }

  /** A string ending in a space, followed by `st`, does not end with a
      string ending in '.' followed by `st`. */
  lemma NoDotBeforeSuffix(h: string, x: string, st: string)
    requires h != [] && h[|h| - 1] == ' '
    requires x != [] && x[|x| - 1] == '.'
    ensures !EndsWith(h + st, x + st)
  {
    var p := h + st;
    assert p[|p| - |st| - 1] == ' ';
    assert (x + st)[|x| - 1] == '.';
  }

  lemma EndsWithAppended(h: string, x: string, y: string)
    ensures EndsWith(h + x + y, x + y)
    ensures EndsWith(h + x + y, y)
  {
    var s := h + x + y;
    assert s == h + (x + y);
    assert s[|s| - |x + y|..] == x + y;
    assert s == (h + x) + y;
    assert s[|s| - |y|..] == y;
  }

  /** The opening lines of the prompt end in a space. */
  lemma HeadEndsInSpace(concept: string, description: string)
    ensures PromptHead(concept, description) != []
    ensures PromptHead(concept, description)[|PromptHead(concept, description)| - 1] == ' '
  {
    var a := PromptOpening + concept + PromptMiddle + description;
    assert PromptHead(concept, description) == a + PromptHeadEnd;
    assert (a + PromptHeadEnd)[|a| + 4] == PromptHeadEnd[4] == ' ';
  }

  /** The text-requirement line ends in a full stop. */
  lemma TextLineEndsInDot(itemText: string)
    ensures TextRequirement(itemText) != []
    ensures TextRequirement(itemText)[|TextRequirement(itemText)| - 1] == '.'
  {
    var a := TextOpening + itemText;
    assert TextRequirement(itemText) == a + TextClosing;
    assert (a + TextClosing)[|a| + |TextClosing| - 1] == TextClosing[|TextClosing| - 1] == '.';
  }

  /** The style line always ends the prompt; the text-requirement line comes
      right before it exactly when the item has non-blank text. */
  lemma PromptTail(concept: string, description: string, itemText: Option<string>, t: string)
    ensures EndsWith(Prompt(concept, description, itemText), StyleLine)
    ensures WantsText(itemText) ==>
      EndsWith(Prompt(concept, description, itemText), TextRequirement(itemText.value) + StyleLine)
    ensures EndsWith(Prompt(concept, description, itemText), TextRequirement(t) + StyleLine) ==>
      WantsText(itemText)
  {
    var head := PromptHead(concept, description);
    if WantsText(itemText) {
      EndsWithAppended(head, TextRequirement(itemText.value), StyleLine);
    } else {
      EndsWithAppended(head, "", StyleLine);
      assert head + "" == head;
      HeadEndsInSpace(concept, description);
      TextLineEndsInDot(t);
      NoDotBeforeSuffix(head, TextRequirement(t), StyleLine);
    }
  }

  // ---- the inbound reply ----

  /** The fields of a reply the adapter reads; every one of them may be absent. */
  datatype InlineData = InlineData(data: Option<string>)
  datatype ResponsePart = ResponsePart(inlineData: Option<InlineData>)
  datatype Content = Content(parts: Option<seq<ResponsePart>>)
  datatype Candidate = Candidate(content: Option<Content>)
  datatype Response = Response(candidates: Option<seq<Candidate>>)

  /** What the service call does: it replies, or it throws. */
  datatype SdkReply = Replied(response: Response) | Threw(message: string)

  /** `part.inlineData && part.inlineData.data`: inline data with a non-empty payload. */
  predicate CarriesImage(part: ResponsePart) {
    part.inlineData.Some? && part.inlineData.value.data.Some? && part.inlineData.value.data.value != ""
  }

  /** The parts of the first candidate, when there is one and it has parts. */
  function FirstCandidateParts(response: Response): Option<seq<ResponsePart>> {
    if response.candidates.Some? && |response.candidates.value| > 0
       && response.candidates.value[0].content.Some?
       && response.candidates.value[0].content.value.parts.Some?
    then Some(response.candidates.value[0].content.value.parts.value)
    else None
  }

  /** The image the adapter returns for a reply, or the error it throws. */
  function ImageOf(response: Response): (r: Result<string>)
    ensures r.Ok? ==> PngDataUriPrefix <= r.value && |r.value| > |PngDataUriPrefix|
    ensures r.Err? ==> r.message == NoImageMessage
  {
    match FirstCandidateParts(response)
    case None => Err(NoImageMessage)
    case Some(parts) =>
      var k := FirstIndex(parts, CarriesImage);
      if k < |parts| then Ok(PngDataUriPrefix + parts[k].inlineData.value.data.value)
      else Err(NoImageMessage)
  }

  /** The reply yields an image exactly when its first candidate has parts and
      one of them carries inline data; the image is then the first such part's
      data behind the PNG data-URI prefix. */
  lemma ImageOfFirstInline(response: Response)
    ensures ImageOf(response).Ok? <==>
      FirstCandidateParts(response).Some?
      && exists k :: 0 <= k < |FirstCandidateParts(response).value|
                     && CarriesImage(FirstCandidateParts(response).value[k])
    ensures ImageOf(response).Ok? ==>
      var parts := FirstCandidateParts(response).value;
      exists k :: 0 <= k < |parts| && CarriesImage(parts[k])
        && (forall j :: 0 <= j < k ==> !CarriesImage(parts[j]))
        && ImageOf(response).value == PngDataUriPrefix + parts[k].inlineData.value.data.value
  {
    if FirstCandidateParts(response).Some? {
      var parts := FirstCandidateParts(response).value;
      var k := FirstIndex(parts, CarriesImage);
      if k < |parts| {
        assert CarriesImage(parts[k]);
      }
    }
  }

  /** The extraction loop: the first part with inline data wins. */
  method ExtractImage(response: Response) returns (r: Result<string>)
    ensures r == ImageOf(response)
  {
    if response.candidates.Some? && |response.candidates.value| > 0 {
      var content := response.candidates.value[0].content;
      if content.Some? && content.value.parts.Some? {
        var parts := content.value.parts.value;
        var i := 0;
        while i < |parts|
          invariant 0 <= i <= |parts|
          invariant forall j :: 0 <= j < i ==> !CarriesImage(parts[j])
        {
          var part := parts[i];
          if part.inlineData.Some? && part.inlineData.value.data.Some? && part.inlineData.value.data.value != "" {
            assert FirstIndex(parts, CarriesImage) == i;
            return Ok(PngDataUriPrefix + part.inlineData.value.data.value);
          }
          i := i + 1;
        }
      }
    }
    return Err(NoImageMessage);
  }

  /** `generateEmoji`: what one generation attempt returns. */
  function GenerationResult(concept: string, referenceImages: seq<string>, description: string,
                            itemText: Option<string>, sdk: seq<Part> -> SdkReply): (r: Result<string>)
    ensures r.Ok? ==> PngDataUriPrefix <= r.value && r.value != ""
  {
    match sdk(RequestParts(concept, referenceImages, description, itemText))
    case Threw(message) => Err(message)
    case Replied(response) => ImageOf(response)
  }

  /** One generation attempt: build the request, call the service, extract
      the image; a throw from the service is passed on unchanged. */
  method GenerateEmoji(concept: string, referenceImages: seq<string>, description: string,
                       itemText: Option<string>, sdk: seq<Part> -> SdkReply) returns (r: Result<string>)
    ensures r == GenerationResult(concept, referenceImages, description, itemText, sdk)
  {
    var parts := BuildRequest(concept, referenceImages, description, itemText);
    var reply := sdk(parts);
    match reply
    case Threw(message) =>
      r := Err(message);
    case Replied(response) =>
      r := ExtractImage(response);
  }
}
