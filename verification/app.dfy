/**
 * The edit workflow of the application component (App.tsx): a state machine
 * over seven state fields, driven by the login, upload, processing and
 * upscale handlers. Each handler runs as one atomic step; the file read and
 * the call to the image service are inputs.
 */
module AppState {
  import opened Wrappers
  import opened Strings
  import opened GeminiService
  import opened AppHelpers

  /** The password that unlocks the application. */
  const CorrectPassword := "213213213"

  /** Thrown when an edit succeeds without image data. */
  const NoResultMessage := "AI không trả về kết quả hình ảnh."

  /** Shown when the failure is not an `Error` (a failed file read). */
  const UnknownErrorMessage := "Đã xảy ra lỗi không xác định."

  /** Thrown when an upscale succeeds without image data. */
  const NoUpscaleResultMessage := "AI không trả về kết quả hình ảnh" + " sau khi nâng cấp."

  /** How reading the uploaded file as a data URL ends. */
  datatype ReadOutcome = Loaded(dataUrl: string) | ReadFailed

  /** The image a request's outcome stores, if any (a failed upscale keeps the previous one). */
  function ImageOf(r: Result<string, string>): Option<string>
  {
    if r.Ok? then Some(r.value) else None
  }

  /** The error a request's outcome shows, if any. */
  function ErrorOf(r: Result<string, string>): Option<string>
  {
    if r.Err? then Some(r.error) else None
  }

  /** The base64 payload handed to the service: the second comma-separated field of the data URL. */
  function Payload(dataUrl: string): Option<string>
  {
    SplitField(dataUrl, ',', 1)
  }

  /**
   * What the handlers make of a service result: non-empty data becomes a PNG
   * data URL, empty data the handler's own message, and a failure its
   * message.
   */
  function Settle(result: Result<Option<string>, string>, emptyMessage: string): Result<string, string>
  {
    match result
    case Err(message) => Err(message)
    case Ok(data) => if Truthy(data) then Ok(PngDataUrl(data.value)) else Err(emptyMessage)
  }

  /**
   * How an edit ends: the stored PNG data URL, or the message shown. A failed
   * read rejects with a non-`Error` value, so it shows the unknown-error text.
   */
  function ProcessingResult(read: ReadOutcome, call: CallOutcome): Result<string, string>
  {
    match read
    case ReadFailed => Err(UnknownErrorMessage)
    case Loaded(_) => Settle(ServiceResult(BackgroundEdit, call), NoResultMessage)
  }

  /** The request of an edit of `file` with `option`, once the file has been read as `dataUrl`. */
  function ProcessingRequest(file: File, option: ProcessingOption, dataUrl: string): Request
  {
    BuildRequest(Payload(dataUrl), file.mimeType, FinalPrompt(option))
  }

  /** How an upscale ends: the new PNG data URL, or the message shown. */
  function UpscaleResult(call: CallOutcome): Result<string, string>
  {
    Settle(ServiceResult(UpscaleEdit, call), NoUpscaleResultMessage)
  }

  /** The request of an upscale of the stored data URL. */
  function UpscaleRequest(stored: string): Request
  {
    var parts := ParseDataUrl(stored);
    BuildRequest(parts.payload, parts.mimeType, UpscalePrompt)
  }

  /** The application's state. */
  class App {
    var isAuthenticated: bool
    var originalImage: Option<File>
    var processedImage: Option<string>
    var isProcessing: bool
    var isUpscaling: bool
    var error: Option<string>
    var processingMessage: string

    /** Locked, empty and idle. */
    constructor()
      ensures !isAuthenticated && originalImage == None && processedImage == None
      ensures !isProcessing && !isUpscaling && error == None && processingMessage == ""
    {
      isAuthenticated := false;
      originalImage := None;
      processedImage := None;
      isProcessing := false;
      isUpscaling := false;
      error := None;
      processingMessage := "";
    }

    /** The six option buttons are enabled: an image is loaded and no edit runs. */
    predicate ProcessingEnabled()
      reads this
    {
      originalImage.Some? && !isProcessing
    }

    /** The name offered for the download of the result. */
    function DownloadName(): string
      reads this
    {
      OutputFilename(originalImage)
    }

    /**
     * `handleLogin`: the right password unlocks the application; a wrong one
     * changes nothing.
     */
    method HandleLogin(password: string) returns (accepted: bool)
      modifies this`isAuthenticated
      ensures accepted <==> password == CorrectPassword
      ensures isAuthenticated == (accepted || old(isAuthenticated))
    {
      if password == CorrectPassword {
        isAuthenticated := true;
        return true;
      }
      return false;
    }

    /**
     * `handleImageUpload`: the new file replaces the old one, and the old
     * result and error go; the busy flags stay as they are.
     */
    method HandleImageUpload(file: File)
      modifies this`originalImage, this`processedImage, this`error
      ensures originalImage == Some(file) && processedImage == None && error == None
      ensures ProcessingEnabled() <==> !isProcessing
      ensures DownloadName() == OutputFilename(Some(file))
    {
      originalImage := Some(file);
      processedImage := None;
      error := None;
    }

    /**
     * `handleProcessingRequest`: without an image nothing happens. Otherwise
     * the old result and error are cleared, the file is read and sent with
     * the option's prompt, and the outcome is stored; the busy flag and the
     * progress message are reset whatever happens. The handler does not look
     * at `isProcessing`: only the disabled buttons keep two edits apart.
     */
    method HandleProcessingRequest(option: ProcessingOption, read: ReadOutcome, call: CallOutcome)
      returns (sent: Option<Request>)
      modifies this`processedImage, this`isProcessing, this`error, this`processingMessage
      ensures old(originalImage).None? ==>
                sent == None && processedImage == old(processedImage) && error == old(error)
                && isProcessing == old(isProcessing) && processingMessage == old(processingMessage)
      ensures old(originalImage).Some? ==>
                && sent == (if read.Loaded? then Some(ProcessingRequest(old(originalImage).value, option, read.dataUrl)) else None)
                && processedImage == ImageOf(ProcessingResult(read, call))
                && error == ErrorOf(ProcessingResult(read, call))
                && !isProcessing && processingMessage == ""
      ensures old(originalImage).Some? ==> (processedImage.Some? <==> error.None?)
    {
      if originalImage.None? {
        return None;
      }
      var file := originalImage.value;
      Begin(option);
      sent := RunEdit(file, FinalPrompt(option), read, call);
    }

    /**
     * The `try`/`catch`/`finally` of an edit: read the file, send it with the
     * prompt, store the outcome, and leave the busy state whatever happens.
     */
    method RunEdit(file: File, prompt: string, read: ReadOutcome, call: CallOutcome)
      returns (sent: Option<Request>)
      modifies this`processedImage, this`isProcessing, this`error, this`processingMessage
      ensures sent == (if read.Loaded? then Some(BuildRequest(Payload(read.dataUrl), file.mimeType, prompt)) else None)
      ensures processedImage == (if ProcessingResult(read, call).Ok? then Some(ProcessingResult(read, call).value) else old(processedImage))
      ensures error == (if ProcessingResult(read, call).Err? then Some(ProcessingResult(read, call).error) else old(error))
      ensures !isProcessing && processingMessage == ""
    {
      sent := None;
      match read {
        case ReadFailed =>
          error := Some(UnknownErrorMessage);
        case Loaded(dataUrl) =>
          var base64Data := Payload(dataUrl);
          var request, result := RemoveBackground(base64Data, file.mimeType, prompt, call);
          sent := Some(request);
          Show(result, NoResultMessage);
      }
      isProcessing := false;
      processingMessage := "";
    }

    /**
     * `handleUpscaleRequest`: without a stored result nothing happens.
     * Otherwise the stored data URL is split into payload and media type and
     * sent; a new image replaces the stored one, while a failure keeps it and
     * shows the error. The busy flag is reset whatever happens.
     */
    method HandleUpscaleRequest(call: CallOutcome) returns (sent: Option<Request>)
      modifies this`processedImage, this`isUpscaling, this`error
      ensures !Truthy(old(processedImage)) ==>
                sent == None && processedImage == old(processedImage) && error == old(error)
                && isUpscaling == old(isUpscaling)
      ensures Truthy(old(processedImage)) ==>
                && sent == Some(UpscaleRequest(old(processedImage).value))
                && processedImage == (if UpscaleResult(call).Ok? then Some(UpscaleResult(call).value) else old(processedImage))
                && error == ErrorOf(UpscaleResult(call))
                && !isUpscaling
      ensures Truthy(old(processedImage)) ==> processedImage.Some?
    {
      if !Truthy(processedImage) {
        return None;
      }
      var stored := processedImage.value;
      isUpscaling := true;
      error := None;
      var base64Data := SplitField(stored, ',', 1);
      var mimeType := match MimeCapture(stored)
        case Some(m) => if m != "" then m else DefaultMimeType
        case None => DefaultMimeType;
      var request, result := UpscaleImage(base64Data, mimeType, call);
      sent := Some(request);
      Show(result, NoUpscaleResultMessage);
      isUpscaling := false;
    }

    /** The start of an edit: busy, nothing shown but the option's progress message. */
    method Begin(option: ProcessingOption)
      modifies this`isProcessing, this`processedImage, this`error, this`processingMessage
      ensures isProcessing && processedImage == None && error == None
      ensures processingMessage == ProcessingMessage(option)
    {
      isProcessing := true;
      processedImage := None;
      error := None;
      processingMessage := ProcessingMessage(option);
    }

    /**
     * The body shared by both handlers' `try`: store the new image, or show
     * the error and leave the stored image alone.
     */
    method Show(result: Result<Option<string>, string>, emptyMessage: string)
      modifies this`processedImage, this`error
      ensures processedImage == if Settle(result, emptyMessage).Ok? then Some(Settle(result, emptyMessage).value) else old(processedImage)
      ensures error == if Settle(result, emptyMessage).Err? then Some(Settle(result, emptyMessage).error) else old(error)
    {
      match result {
        case Err(message) =>
          error := Some(message);
        case Ok(data) =>
          if Truthy(data) {
            processedImage := Some(PngDataUrl(data.value));
          } else {
            error := Some(emptyMessage);
          }
      }
    }
  }

  // Properties of the outcomes

  /**
   * An edit ends with an image exactly when the file was read and the service
   * returned non-empty data; the image is that data as a PNG data URL.
   * Otherwise it ends with one of four messages.
   */
  lemma {:induction false} ProcessingOutcomes(read: ReadOutcome, call: CallOutcome)
    ensures var r := ProcessingResult(read, call);
            var s := ServiceResult(BackgroundEdit, call);
            && (r.Ok? <==> read.Loaded? && s.Ok? && Truthy(s.value))
            && (r.Ok? ==> r.value == PngDataUrl(s.value.value))
            && (r.Err? ==> r.error in {RateLimitMessage, GenericMessage(BackgroundEdit), NoResultMessage, UnknownErrorMessage})
  {
    OnlyTwoMessages(BackgroundEdit, call);
  }

  /**
   * An upscale ends with an image exactly when the service returned non-empty
   * data; otherwise it ends with one of three messages.
   */
  lemma {:induction false} UpscaleOutcomes(call: CallOutcome)
    ensures var r := UpscaleResult(call);
            var s := ServiceResult(UpscaleEdit, call);
            && (r.Ok? <==> s.Ok? && Truthy(s.value))
            && (r.Ok? ==> r.value == PngDataUrl(s.value.value))
            && (r.Err? ==> r.error in {RateLimitMessage, GenericMessage(UpscaleEdit), NoUpscaleResultMessage})
  {
    OnlyTwoMessages(UpscaleEdit, call);
  }

  /**
   * An edit of a file read as a base64 data URL sends the file's payload,
   * the file's own media type and the option's prompt.
   */
  lemma {:induction false} ProcessingSendsUpload(file: File, option: ProcessingOption, mime: string, payload: string)
    requires mime != ""
    requires ',' !in mime && ';' !in mime && forall c :: c in mime ==> !IsLineTerminator(c)
    requires ',' !in payload
    ensures ProcessingRequest(file, option, "data:" + mime + ";base64," + payload)
         == Request(ModelName, [InlinePart(Blob(Some(payload), file.mimeType)), TextPart(FinalPrompt(option))], [IMAGE, TEXT])
  {
    ParseDataUrlRoundTrip(mime, payload);
  }

  /**
   * Upscaling a stored edit result sends back exactly the base64 data the
   * service returned, labelled as PNG.
   */
  lemma {:induction false} UpscaleSendsStoredResult(data: string)
    requires ',' !in data
    ensures UpscaleRequest(PngDataUrl(data))
         == Request(ModelName, [InlinePart(Blob(Some(data), "image/png")), TextPart(UpscalePrompt)], [IMAGE, TEXT])
  {
    ReparsePngDataUrl(data);
  }
}
