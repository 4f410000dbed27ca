# ID-photo editor front end: a verified model

The application lets a user log in with a fixed password and upload a
portrait. It then asks an image-generation service for one of six edits: a
blue or white ID-photo background, or one of four outfits on the blue
background. A result can be upscaled and downloaded. This project models the
logic behind those steps in Dafny and proves what each step promises:

- `Wrappers`: optional values, results, and JavaScript truthiness of a
  possibly missing string.
- `Strings`: the JavaScript string operations the code relies on.
  - `split` with a one-character separator, with its round trip through
    `join`, and `lastIndexOf`.
  - `includes`, `startsWith` and `endsWith`.
- `GeminiService` (`services/geminiService.ts`):
  - the request sent for an edit or an upscale;
  - the `for` loop that picks the image out of the reply;
  - the `catch` block that rewrites every failure to a rate-limit message or
    a generic one.
- `AppHelpers`: the pure parts of `App.tsx`.
  - The prompt and the progress message of each option.
  - The download name.
  - The split of a stored `data:` URL (RFC 2397, section 3) into payload and
    media type, including the lazy regular expression `/:(.*?);/`.
- `AppState`: the class `App`. It holds the seven state fields of `App.tsx`
  and one method per handler (login, upload, edit, upscale).
- `Uploader`, `Login`, `Spinner`: the state of the upload area, of the
  password form and of the progress indicator.

The external call is an input, `CallOutcome`. It is either the reply the
service sent (candidates, content, parts) or the value it threw. Reading the
uploaded file is an input too, `ReadOutcome`: the data URL the browser
produced, or a failed read. Each handler runs as one atomic step from its
entry to the end of its `finally` block.

Where the code differs from what its documentation describes, the model
follows the code:

- A file name without a dot gives the download name `-processed.png`,
  because `split('.').slice(0, -1)` is empty.
- The edit handler does not check `isProcessing`. Only the disabled buttons
  keep two edits apart.
- A failed upscale keeps the stored result, while a failed edit has already
  cleared it. After an upscale fails, an image and an error are shown together.
- The six edit buttons are disabled only by `!originalImage || isProcessing`
  (App.tsx:162-182), never by `isUpscaling`. So an edit can start while an
  upscale is in flight, and the model allows it. Because each handler is one
  atomic step, the model does not show the race in which the late upscale
  result (App.tsx:114) overwrites the new edit's result.
- Every failure of the service reaches the user as one of exactly two texts.
  This includes the service's own "no image" error, because it never
  mentions 429.

## Model

| member | source | states |
|---|---|---|
| Strings.Split | App.tsx:108 | `split` always gives at least one piece, no piece holds the separator, the pieces join back to the input, and there is one piece exactly when the separator is absent |
| Strings.SplitUnique | App.tsx:108 | the split is the only separator-free cutting of a string that joins back to it |
| Strings.SplitAtFirst | App.tsx:108 | text before the first separator is the first piece and the rest is split on its own |
| Strings.LastIndexOf | App.tsx:128 | -1 exactly when the character is absent; otherwise an occurrence with none after it |
| Strings.JoinAllButLast | App.tsx:128 | `split(sep).slice(0, -1).join(sep)` is the text before the last separator, or empty when there is none |
| Strings.MissingCharNotContained | services/geminiService.ts:61 | a string lacking one character of `sub` does not include `sub` |
| Strings.ContainsInside | App.tsx:45-71 | a string included in a middle piece is included in the whole |
| Strings.ConcatEnds | App.tsx:76 | a concatenation starts with its first part and ends with its second |
| GeminiService.FindImageData | services/geminiService.ts:46-52 | the loop returns the media of the first part with inline data, as `FirstImage` defines it |
| GeminiService.GenerateImage | services/geminiService.ts:24-65 | the request has the model name, the inline image then the prompt, and modalities IMAGE, TEXT; the result is the data found or the rewritten message (`ServiceResult`) |
| GeminiService.RemoveBackground | services/geminiService.ts:19-66 | the full request carries the caller's image, media type and prompt; the result is `ServiceResult` of the background edit |
| GeminiService.UpscaleImage | services/geminiService.ts:74-118 | the same request with the fixed upscale prompt; the result is `ServiceResult` of the upscale |
| GeminiService.FirstImageAt | services/geminiService.ts:47-50 | an inline part preceded only by text parts is the one returned |
| GeminiService.FirstImageNone | services/geminiService.ts:46-56 | the scan finds nothing exactly when every part is text |
| GeminiService.FirstImageIgnoresLater | services/geminiService.ts:47-50 | once an image is found, later parts are never examined |
| GeminiService.OnlyFirstCandidate | services/geminiService.ts:46 | candidates after the first do not change the result |
| GeminiService.Lacks429 | services/geminiService.ts:61 | a message without the digit 4 never includes "429" |
| GeminiService.InternalErrorsLack429 | services/geminiService.ts:56-61 | neither the no-image error nor the missing-content TypeError mentions 429 |
| GeminiService.GenericIsNotRateLimit | services/geminiService.ts:62-64 | each operation's generic message differs from the rate-limit message |
| GeminiService.OnlyTwoMessages | services/geminiService.ts:58-64 | every rejection carries the rate-limit message or the operation's generic message |
| GeminiService.RateLimitedIff | services/geminiService.ts:61-62 | the rate-limit message appears exactly when a thrown `Error` mentions 429 (no retry) |
| GeminiService.ResponseResult | services/geminiService.ts:46-64 | a reply resolves with the first inline data of the first candidate; a reply without one rejects with the generic message |
| GeminiService.UpscaleMirrorsRemoveBackground | services/geminiService.ts:100-116 | the upscale resolves exactly like the background edit and differs only in its generic message |
| GeminiService.TextOnlyReplyRejected | services/geminiService.ts:46-64 | a reply holding only refusal text is rejected with the generic message |
| GeminiService.TextBeforeImageSkipped | services/geminiService.ts:47-50 | a text part before the image part is skipped |
| AppHelpers.FinalPromptShape | App.tsx:76 | every prompt starts with the option's instruction and ends with a space and the aspect-ratio clause |
| AppHelpers.FinalPromptInjective | App.tsx:47-76 | different options send different prompts |
| AppHelpers.ProcessingMessageInjective | App.tsx:47-75 | different options show different progress messages |
| AppHelpers.BlueHexInBluePhrase | App.tsx:45 | the blue phrase holds the colour code #0073e6 |
| AppHelpers.WhitePromptLacksBlue | App.tsx:54-56 | the white-background prompt holds neither the blue phrase nor #0073e6 |
| AppHelpers.BluePromptHasBlue | App.tsx:50-52 | the blue-background prompt holds the blue phrase and #0073e6 |
| AppHelpers.OutfitPromptHasBlue | App.tsx:58-72 | every outfit prompt holds the blue phrase and #0073e6 |
| AppHelpers.BlueBackgroundExceptWhite | App.tsx:45-76 | the blue phrase and #0073e6 are in the prompt exactly when the option is not white |
| AppHelpers.OutfitPromptLength | App.tsx:58-72 | an outfit instruction is its garment plus a fixed 137 characters |
| AppHelpers.BasePromptLengths | App.tsx:47-72 | the six instructions have six different lengths |
| AppHelpers.OutputFilenameWithoutUpload | App.tsx:127 | without an upload the name is "download.png" |
| AppHelpers.OutputFilenameDropsLastExtension | App.tsx:126-130 | the name is the upload's name up to its last dot, or nothing when it has no dot, followed by "-processed.png" |
| AppHelpers.OutputFilenameKeepsInnerDots | App.tsx:128-129 | `stem.ext` gives `stem-processed.png` whatever dots `stem` holds ("portrait.jpg", "a.b.c") |
| AppHelpers.OutputFilenameWithoutDot | App.tsx:128-129 | a name without a dot gives "-processed.png" ("name") |
| AppHelpers.LazyGroup | App.tsx:109 | the lazy group is a prefix followed by `;`, holds no `;` and no line terminator |
| AppHelpers.LazyGroupReadsUpToSemicolon | App.tsx:109 | a group free of `;` and line terminators, followed by `;`, is read back whole |
| AppHelpers.MimeCaptureAtFirstColon | App.tsx:109 | the match starts at the first colon when a group can be read from there |
| AppHelpers.ParseDataUrlFields | App.tsx:108-109 | a base64 data URL yields its media type and the payload up to its first comma |
| AppHelpers.ParseDataUrlRoundTrip | App.tsx:108-109 | splitting `data:<mime>;base64,<payload>` gives back exactly the media type and the payload |
| AppHelpers.ReparsePngDataUrl | App.tsx:108-114 | a stored result reads back as image/png with the data it was stored with |
| AppState.App.constructor | App.tsx:12-18 | the application starts locked, empty and idle |
| AppState.App.HandleLogin | App.tsx:21-29 | accepted exactly for "213213213", which unlocks; a wrong password changes nothing |
| AppState.App.HandleImageUpload | App.tsx:31-35 | stores the file and clears the result and error; busy flags untouched, so the option buttons are enabled unless an edit runs |
| AppState.App.HandleProcessingRequest | App.tsx:37-99 | with no image nothing changes and nothing is sent; otherwise the file's payload, media type and the option's prompt are sent, the outcome is stored as image or error, so the edit ends with exactly one of the two, and the busy flag and progress message are reset |
| AppState.App.Begin | App.tsx:40-42 | an edit starts busy, with the result and error cleared and the option's progress message shown |
| AppState.App.RunEdit | App.tsx:78-98 | a read file is sent once with the prompt; a failed read sends nothing and shows the unknown-error text; busy state ends whatever happens |
| AppState.App.Show | App.tsx:87-94 | non-empty data is stored as a PNG data URL; empty data or a failure shows an error and keeps the stored image |
| AppState.App.HandleUpscaleRequest | App.tsx:101-123 | with no stored result nothing changes; otherwise the stored payload and media type are sent with the upscale prompt, a new image replaces the old one, a failure keeps it and shows the error, so the stored image is never lost, and the busy flag ends false |
| AppState.ProcessingOutcomes | App.tsx:78-94 | an edit ends with an image exactly when the file was read and the service returned non-empty data; otherwise with one of four messages |
| AppState.UpscaleOutcomes | App.tsx:107-119 | an upscale ends with an image exactly when the service returned non-empty data; otherwise with one of three messages |
| AppState.ProcessingSendsUpload | App.tsx:80-89 | an edit of a file read as a base64 data URL sends that payload with the file's own media type and the option's prompt |
| AppState.UpscaleSendsStoredResult | App.tsx:108-114 | upscaling a stored edit result sends back the data the service returned, labelled image/png |
| Uploader.OnlyFirstFileCounts | components/ImageUploader.tsx:14-16 | files after the first change nothing; an empty or missing list hands over nothing |
| Uploader.AcceptedFileIff | components/ImageUploader.tsx:14-19 | a file is handed over exactly when it is the first one and its type starts with "image/" |
| Uploader.DragLastEventDecides | components/ImageUploader.tsx:31-35 | an enter, over or leave event decides the highlight on its own; other events keep it |
| Uploader.ImageUploader.constructor | components/ImageUploader.tsx:10 | the zone starts without highlight |
| Uploader.ImageUploader.HandleFiles | components/ImageUploader.tsx:13-21 | the upload handler runs exactly for an accepted file; a first file of another type raises the alert; otherwise the application is unchanged |
| Uploader.ImageUploader.HandleDrag | components/ImageUploader.tsx:28-36 | enter and over set the highlight, leave clears it, other event types keep it |
| Uploader.ImageUploader.HandleDrop | components/ImageUploader.tsx:38-43 | a drop always clears the highlight, then handles the files with the same outcome and the same alert text as a chosen file |
| Login.LoginScreen.constructor | components/LoginScreen.tsx:9-10 | the form starts with empty password and error |
| Login.LoginScreen.OnPasswordChange | components/LoginScreen.tsx:46 | typing replaces the password and leaves the error on screen |
| Login.LoginScreen.HandleSubmit | components/LoginScreen.tsx:12-19 | the current password is submitted once; a refusal shows the wrong-password text and empties the field; an acceptance leaves the form as it is |
| Spinner.DisplayText | components/LoadingSpinner.tsx:20 | the text starts with the message, or with "AI đang xử lý" when the message is empty, and ends with the dots |
| Spinner.DotsLength | components/LoadingSpinner.tsx:12 | `n` dots are `n` characters, all dots |
| Spinner.DotsCycle | components/LoadingSpinner.tsx:8-12 | after `n` ticks from the empty start there are `n % 4` dots |
| Spinner.DotsStayInCycle | components/LoadingSpinner.tsx:8-12 | the dots are always "", ".", ".." or "..." |
| Spinner.DotsPeriodFour | components/LoadingSpinner.tsx:12 | four ticks restore the dots, and one to three ticks do not |
| Spinner.LoadingSpinner.constructor | components/LoadingSpinner.tsx:8 | the indicator starts with no dots |
| Spinner.LoadingSpinner.Tick | components/LoadingSpinner.tsx:11-13 | one tick applies the step function and keeps the dots those of the ticks so far, hence one of the four values |

## Left out

- The service client: the construction of the client and the network call
  itself are outside the model. Their reply or thrown value is the
  `CallOutcome` input. The startup check of the API key is environment I/O
  and is also outside the model.
- Browser I/O: reading the file (`FileReader`) and base64 encoding are
  replaced by the `ReadOutcome` input. Only the `split(',')[1]` applied to
  its result is modelled.
- Asynchrony: each handler is one atomic step. States between an `await` and
  the `finally` are therefore never observed. The gap includes
  `isProcessing`/`isUpscaling` being true and the progress message showing.
- AppState.App.ProcessingEnabled: the buttons' disabled predicate is defined.
  It is not used to gate the handlers. Every path through each handler
  resets the busy flag it set, and nothing else sets them, so the busy flags
  are false between steps. A handler's own contract shows that, when it runs, it leaves
  `isProcessing` or `isUpscaling` false; the model has no lemma over whole
  sequences of steps.
- The upscale button's `disabled={isUpscaling}` in components/ResultDisplay.tsx
  is left out for the same reason. The rest of that file, Header.tsx and
  icons.tsx are markup.
- The fallback text "Đã xảy ra lỗi không xác định khi nâng cấp." (App.tsx:119)
  is not modelled. Every value that can be thrown inside the upscale `try` is
  an `Error`, so that branch cannot be reached.
- The following are not modelled:
  - rendering;
  - CSS;
  - `alert` (only its message is returned);
  - `console.error`;
  - object URLs;
  - the file input's `handleChange` and `onButtonClick`, which only forward
    to `handleFiles` or click the hidden input.
- Timers: `setInterval`/`clearInterval` timing is not modelled. A tick is a
  call to `LoadingSpinner.Tick`.
- Strings are sequences of Unicode code points, while JavaScript strings are
  UTF-16. Every literal in the code lies in the Basic Multilingual Plane, so
  the two agree on them.
- Only the `type` and `name` of a browser `File` are modelled.
