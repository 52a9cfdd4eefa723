/** The image-generation client (services/geminiService.ts): the instruction
    it sends, and how it turns the service's reply into an image URI or an
    error. The remote call itself is not modelled: its reply is an input. */
module GeminiService {
  import opened Types

  /** Every image the client returns is a PNG data URI with this prefix. */
  const DataUriPrefix: string := "data:image/png;base64,"

  /** The message of the error thrown when the reply carries no image. */
  const NoImageMessage: string := "Tidak ada gambar yang dihasilkan oleh AI."

  /** The shape of the reply, as far as the client reads it; every link of
      the chain candidates -> content -> parts may be absent. */
  datatype Blob = Blob(data: Option<string>, mimeType: Option<string>)
  datatype Part = Part(text: Option<string>, inlineData: Option<Blob>)
  datatype Content = Content(parts: Option<seq<Part>>)
  datatype Candidate = Candidate(content: Option<Content>)
  datatype Response = Response(candidates: Option<seq<Candidate>>)

  /** What the client asks for: one text part holding the instruction, and
      the aspect ratio in the image configuration. */
  datatype Request = Request(instruction: string, aspectRatio: AspectRatio)

  /** How the remote call settles: with a response, or by throwing. */
  datatype Reply = Responded(response: Response) | Rejected(error: ThrownError)

  /** The instruction is the prompt immediately followed by the style
      suffix, with nothing inserted between them. */
  function ComposePrompt(prompt: string, styleSuffix: string): (full: string)
    ensures |full| == |prompt| + |styleSuffix|
    ensures full[..|prompt|] == prompt && full[|prompt|..] == styleSuffix
  {
    prompt + styleSuffix
  }

  /** The parts of the first candidate; a missing link anywhere in the
      chain gives no parts at all. */
  function CandidateParts(response: Response): (parts: seq<Part>)
    ensures parts != [] ==>
      && response.candidates.Some? && response.candidates.value != []
      && response.candidates.value[0].content.Some?
      && response.candidates.value[0].content.value.parts == Some(parts)
    ensures response.candidates.Some? && response.candidates.value != []
      && response.candidates.value[0].content.Some?
      && response.candidates.value[0].content.value.parts.Some?
      ==> parts == response.candidates.value[0].content.value.parts.value
  {
    match response.candidates
    case None => []
    case Some(candidates) =>
      if candidates == [] then []
      else match candidates[0].content
        case None => []
        case Some(content) =>
          match content.parts
          case None => []
          case Some(parts) => parts
  }

  /** A template literal's rendering of a string that may be absent. */
  function Interpolate(s: Option<string>): (rendered: string)
    ensures s.Some? ==> rendered == s.value
    ensures s.None? ==> rendered == "undefined"
  {
    match s
    case None => "undefined"
    case Some(t) => t
  }

  /** The URI made from an inline payload. The payload's own MIME type is
      not consulted: the URI always says PNG. */
  function DataUri(blob: Blob): (uri: string)
    ensures |uri| >= |DataUriPrefix| > 0
    ensures uri[..|DataUriPrefix|] == DataUriPrefix && uri[|DataUriPrefix|..] == Interpolate(blob.data)
  {
    DataUriPrefix + Interpolate(blob.data)
  }

  /** The index of the first part carrying inline data, or |parts| when no
      part does. */
  function FirstInlineIndex(parts: seq<Part>): (k: nat)
    ensures k <= |parts|
    ensures k < |parts| ==> parts[k].inlineData.Some?
    ensures forall j :: 0 <= j < k ==> parts[j].inlineData.None?
  {
    if parts == [] then 0
    else if parts[0].inlineData.Some? then 0
    else 1 + FirstInlineIndex(parts[1..])
  }

  /** The image the reply's parts carry: the URI of the first part with
      inline data, or None when no part has any. */
  function ExtractImage(parts: seq<Part>): (url: Option<string>)
    ensures url.None? <==> forall i :: 0 <= i < |parts| ==> parts[i].inlineData.None?
    ensures url.Some? ==>
      exists i :: (0 <= i < |parts| && parts[i].inlineData.Some?
        && url.value == DataUri(parts[i].inlineData.value)
        && forall j :: 0 <= j < i ==> parts[j].inlineData.None?)
  {
    var k := FirstInlineIndex(parts);
    if k < |parts| then Some(DataUri(parts[k].inlineData.value)) else None
  }

  /** The scan of the parts in order, stopping at the first inline payload;
      the empty string means nothing was found. */
  method ScanParts(parts: seq<Part>) returns (imageUrl: string)
    ensures ExtractImage(parts).Some? ==> imageUrl == ExtractImage(parts).value
    ensures ExtractImage(parts).None? ==> imageUrl == ""
  {
    imageUrl := "";
    var i := 0;
    while i < |parts|
      invariant 0 <= i <= |parts|
      invariant imageUrl == ""
      invariant forall j :: 0 <= j < i ==> parts[j].inlineData.None?
    {
      if parts[i].inlineData.Some? {
        imageUrl := DataUri(parts[i].inlineData.value);
        assert FirstInlineIndex(parts) == i;
        break;
      }
      i := i + 1;
    }
  }

  /** What generateAIImage settles to once the remote call has settled:
      the image URI, the no-image error, or the call's own error unchanged. */
  function Outcome(reply: Reply): (result: Result<string>)
    ensures reply.Rejected? ==> result == Err(reply.error)
    ensures reply.Responded? ==>
      (result.Err? <==> forall i :: 0 <= i < |CandidateParts(reply.response)| ==> CandidateParts(reply.response)[i].inlineData.None?)
    ensures result.Err? && reply.Responded? ==> result.error == ThrownError(NoImageMessage)
    ensures result.Ok? ==> |result.value| >= |DataUriPrefix| > 0 && result.value[..|DataUriPrefix|] == DataUriPrefix
    ensures reply.Responded? && result.Ok? ==> Some(result.value) == ExtractImage(CandidateParts(reply.response))
  {
    match reply
    case Rejected(e) => Err(e)
    case Responded(response) =>
      match ExtractImage(CandidateParts(response))
      case None => Err(ThrownError(NoImageMessage))
      case Some(url) => Ok(url)
  }

  /** generateAIImage: composes the instruction, sends it with the aspect
      ratio, scans the reply, and throws when no image came back. */
  method GenerateAIImage(prompt: string, aspectRatio: AspectRatio, styleSuffix: string, reply: Reply)
    returns (sent: Request, result: Result<string>)
    ensures sent.instruction == ComposePrompt(prompt, styleSuffix) && sent.aspectRatio == aspectRatio
    ensures result == Outcome(reply)
  {
    var fullPrompt := ComposePrompt(prompt, styleSuffix);
    sent := Request(fullPrompt, aspectRatio);
    match reply {
      case Rejected(e) =>
        result := Err(e);
      case Responded(response) =>
        var imageUrl := ScanParts(CandidateParts(response));
        if imageUrl == "" {
          result := Err(ThrownError(NoImageMessage));
        } else {
          result := Ok(imageUrl);
        }
    }
  }

  /** Once a part with inline data is found, the parts after it do not
      matter. */
  lemma {:induction false} LaterPartsIgnored(parts: seq<Part>, more: seq<Part>)
    requires ExtractImage(parts).Some?
    ensures ExtractImage(parts + more) == ExtractImage(parts)
  {
    var k := FirstInlineIndex(parts);
    var k' := FirstInlineIndex(parts + more);
    assert (parts + more)[k] == parts[k];
  }

  /** Parts without inline data (text commentary) before the image are
      skipped. */
  lemma TextPartSkipped(part: Part, parts: seq<Part>)
    requires part.inlineData.None?
    ensures ExtractImage([part] + parts) == ExtractImage(parts)
  {
    assert ([part] + parts)[1..] == parts;
  }

  /** Only the first candidate is read. */
  lemma OnlyFirstCandidateRead(first: Candidate, rest: seq<Candidate>, others: seq<Candidate>)
    ensures CandidateParts(Response(Some([first] + rest))) == CandidateParts(Response(Some([first] + others)))
  {
  }

  /** A reply without candidates, content or parts is the no-image error,
      never an empty image. */
  lemma MissingChainFails(response: Response)
    requires response.candidates.None? || response.candidates == Some([])
      || (response.candidates.Some? && response.candidates.value != [] && response.candidates.value[0].content.None?)
    ensures Outcome(Responded(response)) == Err(ThrownError(NoImageMessage))
  {
  }
}
