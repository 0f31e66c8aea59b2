/**
 * The generative-content service (services/geminiService.ts) with the network calls
 * taken as parameters: the `data:` URLs it builds from an image reply and parses back
 * before an edit request, the choice of the first inline image part of a reply, and the
 * fallback strings of the text call.
 */
module Gemini {
  import opened Wrappers

  const Scheme: string := "data:"
  const Marker: string := ";base64,"

  /** The two groups of a matched `data:` URL. */
  datatype DataUrl = DataUrl(mime: string, data: string)

  /** The template `data:${mimeType};base64,${data}`. */
  function BuildDataUrl(mime: string, data: string): (r: string)
    ensures |r| == |Scheme| + |mime| + |Marker| + |data|
    ensures r[..|Scheme|] == Scheme && r[|Scheme|..|Scheme| + |mime|] == mime
    ensures r[|Scheme| + |mime|..|Scheme| + |mime| + |Marker|] == Marker
    ensures r[|Scheme| + |mime| + |Marker|..] == data
  {
    Scheme + mime + Marker + data
  }

  /** The characters a regular-expression `.` does not match (ECMAScript LineTerminator). */
  predicate IsLineTerminator(c: char)
  {
    c == '\n' || c == '\r' || c == '\U{2028}' || c == '\U{2029}'
  }

  predicate SingleLine(s: string)
  {
    forall i :: 0 <= i < |s| ==> !IsLineTerminator(s[i])
  }

  /** `;base64,` occurs in t at q with at least one character after it. */
  predicate MarkerFollowedAt(t: string, q: int)
  {
    0 <= q && q + |Marker| < |t| && t[q..q + |Marker|] == Marker
  }

  /**
   * The text after `data:` can be split at p by `(.+);base64,(.+)`: a non-empty first
   * group t[..p], the marker, and a non-empty second group.
   */
  predicate SplitAt(t: string, p: int)
  {
    1 <= p && MarkerFollowedAt(t, p)
  }

  /** The largest split position not above hi: the one a greedy first group settles on. */
  function LastSplit(t: string, hi: int): (r: Option<nat>)
    ensures r.Some? ==> r.value <= hi && SplitAt(t, r.value)
    ensures r.Some? ==> forall p :: r.value < p <= hi ==> !SplitAt(t, p)
    ensures r.None? ==> forall p :: p <= hi ==> !SplitAt(t, p)
    decreases hi
  {
    if hi < 1 then None
    else if SplitAt(t, hi) then Some(hi)
    else LastSplit(t, hi - 1)
  }

  /** `base64Image.match(/^data:(.+);base64,(.+)$/)`, giving the two groups. */
  function ParseDataUrl(s: string): (r: Option<DataUrl>)
    ensures r.None? <==>
      !(|s| >= |Scheme| && s[..|Scheme|] == Scheme && SingleLine(s[|Scheme|..])
        && exists p :: SplitAt(s[|Scheme|..], p))
    ensures r.Some? ==>
      && s == BuildDataUrl(r.value.mime, r.value.data)
      && r.value.mime != "" && r.value.data != ""
      && SingleLine(r.value.mime) && SingleLine(r.value.data)
    ensures r.Some? ==> forall p :: |r.value.mime| < p ==> !SplitAt(s[|Scheme|..], p)
  {
    if |s| < |Scheme| || s[..|Scheme|] != Scheme || !SingleLine(s[|Scheme|..]) then None
    else
      var t := s[|Scheme|..];
      match LastSplit(t, |t|)
      case None => None
      case Some(p) =>
        assert s == Scheme + t[..p] + Marker + t[p + |Marker|..] by {
          assert t == t[..p] + t[p..p + |Marker|] + t[p + |Marker|..];
        }
        Some(DataUrl(t[..p], t[p + |Marker|..]))
  }

  /** The only split of mime + marker + data is after mime when data holds no followed marker. */
  lemma OnlySplit(mime: string, data: string)
    requires mime != "" && data != ""
    requires forall q :: !MarkerFollowedAt(data, q)
    ensures var t := mime + Marker + data;
      SplitAt(t, |mime|) && forall p :: |mime| < p ==> !SplitAt(t, p)
  {
    var t := mime + Marker + data;
    assert t[|mime|..|mime| + |Marker|] == Marker;
    forall p | |mime| < p
      ensures !SplitAt(t, p)
    {
      if p < |mime| + |Marker| {
        assert t[p] == Marker[p - |mime|] != ';';
        assert p + |Marker| < |t| ==> t[p..p + |Marker|][0] == t[p];
      } else {
        var q := p - |mime| - |Marker|;
        assert !MarkerFollowedAt(data, q);
        assert p + |Marker| < |t| ==> t[p..p + |Marker|] == data[q..q + |Marker|];
      }
    }
  }

  /**
   * Building a URL and parsing it gives back mime and data when both are non-empty
   * single-line strings and data holds no `;base64,` with text after it.
   */
  lemma RoundTrip(mime: string, data: string)
    requires mime != "" && data != "" && SingleLine(mime) && SingleLine(data)
    requires forall q :: !MarkerFollowedAt(data, q)
    ensures ParseDataUrl(BuildDataUrl(mime, data)) == Some(DataUrl(mime, data))
  {
    var s := BuildDataUrl(mime, data);
    var t := mime + Marker + data;
    assert s[|Scheme|..] == t;
    assert SingleLine(t) by {
      forall i | 0 <= i < |t|
        ensures !IsLineTerminator(t[i])
      {
        if i < |mime| {
          assert t[i] == mime[i];
        } else if i >= |mime| + |Marker| {
          assert t[i] == data[i - |mime| - |Marker|];
        }
      }
    }
    OnlySplit(mime, data);
    var r := LastSplit(t, |t|);
    assert r == Some(|mime|);
    assert t[..|mime|] == mime;
    assert t[|mime| + |Marker|..] == data;
  }

  /** The characters of standard base64 text. */
  predicate IsBase64Char(c: char)
  {
    ('A' <= c <= 'Z') || ('a' <= c <= 'z') || ('0' <= c <= '9') || c == '+' || c == '/' || c == '='
  }

  /** A base64 payload with a single-line mime type always survives the build and parse. */
  lemma Base64RoundTrip(mime: string, data: string)
    requires mime != "" && SingleLine(mime) && data != ""
    requires forall i :: 0 <= i < |data| ==> IsBase64Char(data[i])
    ensures ParseDataUrl(BuildDataUrl(mime, data)) == Some(DataUrl(mime, data))
  {
    forall q | 0 <= q < |data|
      ensures !MarkerFollowedAt(data, q)
    {
      assert IsBase64Char(data[q]);
    }
    RoundTrip(mime, data);
  }

  /** A data part carrying `;base64,` moves into the first group: the greedy split. */
  lemma GreedySplit(mime: string, d1: string, d2: string)
    requires mime != "" && d1 != "" && d2 != ""
    requires SingleLine(mime + Marker + d1) && SingleLine(d2)
    requires forall q :: !MarkerFollowedAt(d2, q)
    ensures ParseDataUrl(BuildDataUrl(mime, d1 + Marker + d2)) == Some(DataUrl(mime + Marker + d1, d2))
  {
    assert BuildDataUrl(mime, d1 + Marker + d2) == BuildDataUrl(mime + Marker + d1, d2);
    RoundTrip(mime + Marker + d1, d2);
  }

  // The reply of the image model, as far as the service reads it.

  datatype InlineData = InlineData(mimeType: Option<string>, data: Option<string>)
  datatype Part = Part(text: Option<string>, inlineData: Option<InlineData>)
  datatype Content = Content(parts: Option<seq<Part>>)
  datatype Candidate = Candidate(content: Option<Content>)

  /** A reply, or the exception the call threw. */
  datatype ImageReply = ImageFailed | ImageResponse(candidates: Option<seq<Candidate>>)

  /** A request to the image model: the model name and the parts of the content. */
  datatype Request = Request(model: string, parts: seq<Part>)

  const ImageModel: string := "gemini-2.5-flash-image"

  /** How a template literal shows an optional string: a missing one becomes `undefined`. */
  function Show(o: Option<string>): string
  {
    match o
    case None => "undefined"
    case Some(v) => v
  }

  /** `response.candidates?.[0]?.content?.parts || []`. */
  function ReplyParts(candidates: Option<seq<Candidate>>): (r: seq<Part>)
    ensures candidates.None? || candidates.value == [] || candidates.value[0].content.None?
      ==> r == []
    ensures candidates.Some? && candidates.value != [] && candidates.value[0].content.Some? ==>
      r == (if candidates.value[0].content.value.parts.Some? then candidates.value[0].content.value.parts.value else [])
  {
    if candidates.None? || candidates.value == [] then []
    else match candidates.value[0].content
      case None => []
      case Some(c) => if c.parts.None? then [] else c.parts.value
  }

  /** Part i is the first part carrying inline data. */
  predicate FirstInlineAt(parts: seq<Part>, i: int)
  {
    0 <= i < |parts| && parts[i].inlineData.Some? && forall j :: 0 <= j < i ==> parts[j].inlineData.None?
  }

  /** The inline data of the first part that has any. */
  function FirstInline(parts: seq<Part>): (r: Option<InlineData>)
    ensures r.None? <==> forall i :: 0 <= i < |parts| ==> parts[i].inlineData.None?
    ensures r.Some? ==> exists i :: FirstInlineAt(parts, i) && parts[i].inlineData == r
  {
    if parts == [] then None
    else if parts[0].inlineData.Some? then
      assert FirstInlineAt(parts, 0);
      parts[0].inlineData
    else
      var r := FirstInline(parts[1..]);
      if r.Some? then
        var i :| FirstInlineAt(parts[1..], i) && parts[1..][i].inlineData == r;
        assert FirstInlineAt(parts, i + 1);
        r
      else r
  }

  /** The loop over the parts of a reply: the data URL of the first inline image, or null. */
  function ImageUrl(reply: ImageReply): (r: Option<string>)
    ensures reply.ImageFailed? ==> r.None?
    ensures reply.ImageResponse? ==> (r.None? <==> FirstInline(ReplyParts(reply.candidates)).None?)
    ensures r.Some? ==> exists m, d ::
      FirstInline(ReplyParts(reply.candidates)) == Some(InlineData(m, d)) && r.value == BuildDataUrl(Show(m), Show(d))
    ensures r.Some? ==> |r.value| >= |Scheme| + |Marker| && r.value[..|Scheme|] == Scheme
  {
    if reply.ImageFailed? then None
    else match FirstInline(ReplyParts(reply.candidates))
      case None => None
      case Some(d) =>
        assert FirstInline(ReplyParts(reply.candidates)) == Some(InlineData(d.mimeType, d.data));
        Some(BuildDataUrl(Show(d.mimeType), Show(d.data)))
  }

  /** generateImage: the prompt as the single text part, then the reply's first image. */
  function GenerateImage(prompt: string, service: Request -> ImageReply): (r: Option<string>)
    ensures r.Some? ==> |r.value| >= |Scheme| && r.value[..|Scheme|] == Scheme
    ensures r == ImageUrl(service(Request(ImageModel, [Part(Some(prompt), None)])))
  {
    ImageUrl(service(Request(ImageModel, [Part(Some(prompt), None)])))
  }

  /** The edit request: the parsed image as an inline part, followed by the prompt. */
  function EditRequest(image: DataUrl, prompt: string): (q: Request)
    ensures q.model == ImageModel && |q.parts| == 2
    ensures q.parts[0].inlineData == Some(InlineData(Some(image.mime), Some(image.data)))
    ensures q.parts[1] == Part(Some(prompt), None)
  {
    Request(ImageModel, [Part(None, Some(InlineData(Some(image.mime), Some(image.data)))), Part(Some(prompt), None)])
  }

  /** editImage: an image that is not a matching data URL gives null without any request. */
  function EditImage(image: string, prompt: string, service: Request -> ImageReply): (r: Option<string>)
    ensures ParseDataUrl(image).None? ==> r.None?
    ensures r.Some? ==> |r.value| >= |Scheme| && r.value[..|Scheme|] == Scheme
    ensures ParseDataUrl(image).Some? ==> r == ImageUrl(service(EditRequest(ParseDataUrl(image).value, prompt)))
  {
    match ParseDataUrl(image)
    case None => None
    case Some(u) => ImageUrl(service(EditRequest(u, prompt)))
  }

  /**
   * An image the generator returned, with a mime type and base64 data, can be handed
   * to the editor: the edit request carries exactly that mime type and data.
   */
  lemma GeneratedImageEditable(prompt: string, generator: Request -> ImageReply, edit: string,
                               editor: Request -> ImageReply, mime: string, data: string)
    requires var reply := generator(Request(ImageModel, [Part(Some(prompt), None)]));
      reply.ImageResponse? && FirstInline(ReplyParts(reply.candidates)) == Some(InlineData(Some(mime), Some(data)))
    requires mime != "" && SingleLine(mime) && data != ""
    requires forall i :: 0 <= i < |data| ==> IsBase64Char(data[i])
    ensures GenerateImage(prompt, generator) == Some(BuildDataUrl(mime, data))
    ensures EditImage(GenerateImage(prompt, generator).value, edit, editor)
      == ImageUrl(editor(EditRequest(DataUrl(mime, data), edit)))
  {
    Base64RoundTrip(mime, data);
  }

  // The text model.

  /** The text of a reply (the empty or missing text included), or the exception the call threw. */
  datatype TextReply = TextFailed | TextResponse(text: Option<string>)

  const NoResponse: string := "No response received."
  const ConnectionError: string := "Error connecting to Gemini network. Please check your connection."

  /** generateResponse: the reply text, or a fallback message; never empty. */
  function GenerateResponse(reply: TextReply): (r: string)
    ensures r != ""
    ensures reply.TextFailed? ==> r == ConnectionError
    ensures reply.TextResponse? && reply.text.Some? && reply.text.value != "" ==> r == reply.text.value
    ensures reply.TextResponse? && (reply.text.None? || reply.text.value == "") ==> r == NoResponse
  {
    match reply
    case TextFailed => ConnectionError
    case TextResponse(text) => if text.Some? && text.value != "" then text.value else NoResponse
  }
}
