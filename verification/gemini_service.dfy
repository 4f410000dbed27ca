/**
 * The client of the generative image service (services/geminiService.ts):
 * the request each exported operation sends, the scan of the reply for the
 * first inline image, and the rewriting of every failure into one of two
 * user-facing messages.
 *
 * The network call itself is not modelled: its outcome, a response or a
 * thrown value, is a parameter.
 */
module GeminiService {
  import opened Wrappers
  import opened Strings

  /** The model every request names. */
  const ModelName := "gemini-2.5-flash-image-preview"

  /** The response kinds a request asks for. */
  datatype Modality = IMAGE | TEXT

  /** Inline media; its `data` may be `undefined`. */
  datatype Blob = Blob(data: Option<string>, mimeType: string)

  /**
   * One part of a request or of a candidate's content. The reply is scanned
   * only for `inlineData`, so `TextPart` stands for every part without it,
   * whatever else it carries.
   */
  datatype Part = TextPart(text: string) | InlinePart(inlineData: Blob)

  /** The argument of `generateContent`: model, content parts and response modalities. */
  datatype Request = Request(model: string, parts: seq<Part>, responseModalities: seq<Modality>)

  datatype Content = Content(parts: Option<seq<Part>>)
  datatype Candidate = Candidate(content: Option<Content>)
  datatype Response = Response(candidates: Option<seq<Candidate>>)

  /** A thrown value: an `Error` carrying its message, or anything else. */
  datatype Thrown = Error(message: string) | NonError

  /** How the call to the service ends: it resolves with a response or it throws. */
  datatype CallOutcome = Responded(response: Response) | Threw(thrown: Thrown)

  /** The two exported operations: `removeBackground` and `upscaleImage`. */
  datatype Operation = BackgroundEdit | UpscaleEdit

  /** The fixed instruction `upscaleImage` sends. */
  const UpscalePrompt := "Upscale this image to high resolution (approx 2K). Enhance details, clarity, and sharpness of the subject. Maintain the original composition and content, only improving quality and resolution. Ensure the output is a high-quality photograph."

  /** Shown when the service reports a rate limit (its error message mentions 429). */
  const RateLimitMessage := "Quá nhiều yêu cầu. Vui lòng thử lại sau."

  // The long messages below are written in short pieces so that the verifier
  // can inspect every character of them.

  /** The message of the `TypeError` raised by reading `parts` of an absent `content`. */
  const MissingContentMessage := "Cannot read properties of " + "undefined (reading 'parts')"

  const RefusalHint := " It might have refused" + " the request."

  /** The error each operation throws (and then catches) when the reply holds no image. */
  function NoImageMessage(op: Operation): string
  {
    match op
    case BackgroundEdit => "AI did not return an image." + RefusalHint
    case UpscaleEdit => "AI did not return an image" + " for upscaling." + RefusalHint
  }

  /** The message every failure other than a rate limit is rewritten to. */
  function GenericMessage(op: Operation): string
  {
    match op
    case BackgroundEdit => "Đã xảy ra lỗi khi giao tiếp với dịch vụ AI."
    case UpscaleEdit => "Đã xảy ra lỗi khi giao tiếp với dịch vụ AI để nâng cấp ảnh."
  }

  /** The request: the image as an inline part, then the prompt as a text part. */
  function BuildRequest(data: Option<string>, mimeType: string, prompt: string): Request
  {
    Request(ModelName, [InlinePart(Blob(data, mimeType)), TextPart(prompt)], [IMAGE, TEXT])
  }

  /** The media of the first part that carries inline data. */
  function FirstImage(parts: seq<Part>): Option<Blob>
  {
    if |parts| == 0 then None
    else if parts[0].InlinePart? then Some(parts[0].inlineData)
    else FirstImage(parts[1..])
  }

  /**
   * The parts of the first candidate, or nothing when the reply has no
   * candidates, an empty list of them, or a first candidate without parts.
   */
  function FirstCandidateParts(response: Response): Option<seq<Part>>
  {
    match response.candidates
    case None => None
    case Some(cs) =>
      if |cs| == 0 then None
      else match cs[0].content
        case None => None
        case Some(content) => content.parts
  }

  /**
   * The body of the `try` after the call has resolved: the data of the first
   * inline part of the first candidate, or the value thrown instead.
   */
  function Extract(op: Operation, response: Response): Result<Option<string>, Thrown>
  {
    match response.candidates
    case None => Err(Error(NoImageMessage(op)))
    case Some(cs) =>
      if |cs| == 0 then Err(Error(NoImageMessage(op)))
      else match cs[0].content
        case None => Err(Error(MissingContentMessage))
        case Some(content) =>
          match content.parts
          case None => Err(Error(NoImageMessage(op)))
          case Some(parts) =>
            match FirstImage(parts)
            case Some(blob) => Ok(blob.data)
            case None => Err(Error(NoImageMessage(op)))
  }

  /** The `catch` block: the message of the `Error` the operation rethrows. */
  function UserMessage(op: Operation, thrown: Thrown): string
  {
    if thrown.Error? && Contains(thrown.message, "429") then RateLimitMessage
    else GenericMessage(op)
  }

  /** What an operation resolves with, or the message of the `Error` it rejects with. */
  function ServiceResult(op: Operation, outcome: CallOutcome): Result<Option<string>, string>
  {
    match outcome
    case Threw(thrown) => Err(UserMessage(op, thrown))
    case Responded(response) =>
      match Extract(op, response)
      case Ok(data) => Ok(data)
      case Err(thrown) => Err(UserMessage(op, thrown))
  }

  /** The `for` loop over the parts, which returns at the first inline part. */
  method FindImageData(parts: seq<Part>) returns (found: Option<Blob>)
    ensures found == FirstImage(parts)
  {
    for k := 0 to |parts|
      invariant FirstImage(parts[k..]) == FirstImage(parts)
    {
      assert parts[k..][1..] == parts[k + 1..];
      if parts[k].InlinePart? {
        return Some(parts[k].inlineData);
      }
    }
    assert parts[|parts|..] == [];
    return None;
  }

  /**
   * One exported operation: build the request, and turn the outcome of the
   * call into the resolved data or the rewritten error message.
   */
  method GenerateImage(op: Operation, data: Option<string>, mimeType: string, prompt: string,
                       outcome: CallOutcome)
    returns (request: Request, result: Result<Option<string>, string>)
    ensures request.model == ModelName
    ensures request.parts == [InlinePart(Blob(data, mimeType)), TextPart(prompt)]
    ensures request.responseModalities == [IMAGE, TEXT]
    ensures result == ServiceResult(op, outcome)
  {
    request := BuildRequest(data, mimeType, prompt);
    var thrown: Thrown;
    match outcome {
      case Threw(t) =>
        thrown := t;
      case Responded(response) =>
        var cs := response.candidates;
        if cs.Some? && |cs.value| > 0 {
          var content := cs.value[0].content;
          if content.None? {
            thrown := Error(MissingContentMessage);
          } else if content.value.parts.Some? {
            var found := FindImageData(content.value.parts.value);
            if found.Some? {
              return request, Ok(found.value.data);
            }
            thrown := Error(NoImageMessage(op));
          } else {
            thrown := Error(NoImageMessage(op));
          }
        } else {
          thrown := Error(NoImageMessage(op));
        }
    }
    result := Err(UserMessage(op, thrown));
  }

  /** `removeBackground(base64ImageData, mimeType, prompt)` */
  method RemoveBackground(data: Option<string>, mimeType: string, prompt: string, outcome: CallOutcome)
    returns (request: Request, result: Result<Option<string>, string>)
    ensures request == Request(ModelName, [InlinePart(Blob(data, mimeType)), TextPart(prompt)], [IMAGE, TEXT])
    ensures result == ServiceResult(BackgroundEdit, outcome)
  {
    request, result := GenerateImage(BackgroundEdit, data, mimeType, prompt, outcome);
  }

  /** `upscaleImage(base64ImageData, mimeType)`: the same call with the fixed upscale prompt. */
  method UpscaleImage(data: Option<string>, mimeType: string, outcome: CallOutcome)
    returns (request: Request, result: Result<Option<string>, string>)
    ensures request == Request(ModelName, [InlinePart(Blob(data, mimeType)), TextPart(UpscalePrompt)], [IMAGE, TEXT])
    ensures result == ServiceResult(UpscaleEdit, outcome)
  {
    request, result := GenerateImage(UpscaleEdit, data, mimeType, UpscalePrompt, outcome);
  }

  // Properties of the scan

  /** An inline part preceded only by text parts is the one the scan returns. */
  lemma {:induction false} FirstImageAt(parts: seq<Part>, i: nat)
    requires i < |parts| && parts[i].InlinePart?
    requires forall j :: 0 <= j < i ==> parts[j].TextPart?
    ensures FirstImage(parts) == Some(parts[i].inlineData)
    decreases i
  {
    if i > 0 {
      assert forall j :: 0 <= j < i - 1 ==> parts[1..][j] == parts[j + 1];
      FirstImageAt(parts[1..], i - 1);
    }
  }

  /** The scan finds nothing exactly when no part carries inline data. */
  lemma {:induction false} FirstImageNone(parts: seq<Part>)
    ensures FirstImage(parts).None? <==> forall i :: 0 <= i < |parts| ==> parts[i].TextPart?
    decreases |parts|
  {
    if |parts| > 0 {
      FirstImageNone(parts[1..]);
      assert forall i :: 1 <= i < |parts| ==> parts[i] == parts[1..][i - 1];
    }
  }

  /** Once an inline part has been found, later parts are never examined. */
  lemma {:induction false} FirstImageIgnoresLater(parts: seq<Part>, later: seq<Part>)
    requires FirstImage(parts).Some?
    ensures FirstImage(parts + later) == FirstImage(parts)
    decreases |parts|
  {
    assert (parts + later)[0] == parts[0];
    if !parts[0].InlinePart? {
      assert (parts + later)[1..] == parts[1..] + later;
      FirstImageIgnoresLater(parts[1..], later);
    }
  }

  // Properties of the error mapping

  /** A message without the digit 4 never mentions 429. */
  lemma Lacks429(s: string)
    requires '4' !in s
    ensures !Contains(s, "429")
  {
    MissingCharNotContained(s, "429", '4');
  }

  // One lemma per message: each keeps a single long literal in its own proof,
  // which stays far cheaper than unfolding all three in one.

  /** The background edit's "no image" message does not mention 429. */
  lemma BackgroundNoImageLacks429()
    ensures !Contains(NoImageMessage(BackgroundEdit), "429")
  {
    Lacks429(NoImageMessage(BackgroundEdit));
  }

  /** The upscale's "no image" message does not mention 429. */
  lemma UpscaleNoImageLacks429()
    ensures !Contains(NoImageMessage(UpscaleEdit), "429")
  {
    Lacks429(NoImageMessage(UpscaleEdit));
  }

  /** The `TypeError` message of a reply without content does not mention 429. */
  lemma MissingContentLacks429()
    ensures !Contains(MissingContentMessage, "429")
  {
    Lacks429(MissingContentMessage);
  }

  /** Neither error thrown inside the `try` block mentions 429. */
  lemma InternalErrorsLack429(op: Operation)
    ensures !Contains(NoImageMessage(op), "429")
    ensures !Contains(MissingContentMessage, "429")
  {
    if op == BackgroundEdit {
      BackgroundNoImageLacks429();
    } else {
      UpscaleNoImageLacks429();
    }
    MissingContentLacks429();
  }

  lemma GenericIsNotRateLimit(op: Operation)
    ensures GenericMessage(op) != RateLimitMessage
  {
    assert |RateLimitMessage| == 40;
    assert |GenericMessage(op)| > 40;
  }

  /** Every rejection carries either the rate-limit message or the operation's generic message. */
  lemma {:induction false} OnlyTwoMessages(op: Operation, outcome: CallOutcome)
    ensures ServiceResult(op, outcome).Err? ==>
              ServiceResult(op, outcome).error in {RateLimitMessage, GenericMessage(op)}
  {
  }

  /** The rate-limit message appears exactly when a thrown `Error` mentions 429. */
  lemma {:induction false} RateLimitedIff(op: Operation, outcome: CallOutcome)
    ensures ServiceResult(op, outcome) == Err(RateLimitMessage)
        <==> outcome.Threw? && outcome.thrown.Error? && Contains(outcome.thrown.message, "429")
  {
    GenericIsNotRateLimit(op);
    InternalErrorsLack429(op);
  }

  /**
   * A reply resolves with the data of the first inline part of its first
   * candidate; any reply without one (no candidates, no content, no parts,
   * text only) ends with the generic message, because the error thrown for
   * it does not mention 429.
   */
  lemma {:induction false} ResponseResult(op: Operation, response: Response)
    ensures ServiceResult(op, Responded(response))
         == match FirstCandidateParts(response)
            case Some(parts) =>
              (match FirstImage(parts)
               case Some(blob) => Ok(blob.data)
               case None => Err(GenericMessage(op)))
            case None => Err(GenericMessage(op))
  {
    InternalErrorsLack429(op);
  }

  /** Only the first candidate is inspected. */
  lemma {:induction false} OnlyFirstCandidate(op: Operation, first: Candidate, others: seq<Candidate>)
    ensures ServiceResult(op, Responded(Response(Some([first] + others))))
         == ServiceResult(op, Responded(Response(Some([first]))))
  {
    var r1, r2 := Response(Some([first] + others)), Response(Some([first]));
    assert ([first] + others)[0] == first;
    assert FirstCandidateParts(r1) == FirstCandidateParts(r2);
    ResponseResult(op, r1);
    ResponseResult(op, r2);
  }

  /**
   * `upscaleImage` resolves exactly as `removeBackground` does on the same
   * outcome; it only rejects with its own generic message.
   */
  lemma {:induction false} UpscaleMirrorsRemoveBackground(outcome: CallOutcome)
    ensures ServiceResult(UpscaleEdit, outcome)
         == match ServiceResult(BackgroundEdit, outcome)
            case Ok(data) => Ok(data)
            case Err(message) =>
              Err(if message == RateLimitMessage then RateLimitMessage else GenericMessage(UpscaleEdit))
  {
    RateLimitedIff(BackgroundEdit, outcome);
    RateLimitedIff(UpscaleEdit, outcome);
    OnlyTwoMessages(BackgroundEdit, outcome);
    OnlyTwoMessages(UpscaleEdit, outcome);
    if outcome.Responded? {
      ResponseResult(BackgroundEdit, outcome.response);
      ResponseResult(UpscaleEdit, outcome.response);
    }
  }

  /** A reply holding only a refusal text is rejected with the generic message. */
  lemma {:induction false} TextOnlyReplyRejected()
    ensures ServiceResult(BackgroundEdit, Responded(Response(Some([Candidate(Some(Content(Some(
              [TextPart("sorry")]))))]))))
         == Err(GenericMessage(BackgroundEdit))
  {
    var parts := [TextPart("sorry")];
    FirstImageNone(parts);
    ResponseResult(BackgroundEdit, Response(Some([Candidate(Some(Content(Some(parts))))])));
  }

  /** A text part before the image part is skipped. */
  lemma {:induction false} TextBeforeImageSkipped()
    ensures ServiceResult(BackgroundEdit, Responded(Response(Some([Candidate(Some(Content(Some(
              [TextPart("ok"), InlinePart(Blob(Some("QQ=="), "image/png"))]))))]))))
         == Ok(Some("QQ=="))
  {
    var parts := [TextPart("ok"), InlinePart(Blob(Some("QQ=="), "image/png"))];
    FirstImageAt(parts, 1);
    ResponseResult(BackgroundEdit, Response(Some([Candidate(Some(Content(Some(parts))))])));
  }
}
