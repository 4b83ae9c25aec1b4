# MiniMax MCP media service and voice cloning, modelled in Dafny

MiniMax-MCP-JS is an MCP server. It exposes MiniMax's media APIs as tools:
speech, voices, voice cloning, images, video, music and voice design. This
project models three parts of it.

- **The voice-clone pipeline** (`VoiceCloneAPI.cloneVoice`). It validates
  the request, stages the audio file, uploads it, and submits the clone with
  the returned file id. It then returns one of three things: the voice id,
  the demo-audio URL (in URL resource mode), or the voice id together with
  the path where the demo audio was saved.
- **The media service** (`MediaService`). For each operation it checks that
  the service is initialised and delegates to one API client per media kind.
  For images and videos it first fills in a generated output-file name. It
  renders video results as text. Every failure inside an operation is
  wrapped in an `Error` whose message names the operation; a failed
  initialisation check is thrown as it is, since that check sits outside the
  `try`.
- **The shared constants**: resource and transport modes, defaults, error
  messages and the lists of valid models.

Effects outside the code are inputs to the model. These are the MiniMax
gateway, HTTP downloads, the file system, the clock, and the API clients
that are not modelled. A `VoiceClone.Gateway` gives what the gateway
answers. A `VoiceClone.Host` gives what the file system and HTTP calls
return. `now` stands for `Date.now()`. The result of `checkInitialized()` is
the `initCheck` parameter.

`VoiceClone.VoiceCloneApi.CloneVoice` is written imperatively, with the
early returns of the source and a payload map that grows in place. It
returns its result together with the calls it issued, in order. Its
postcondition ties that pair to the specification function
`VoiceClone.CloneVoiceRun`, and the properties of the pipeline are lemmas
about that function. `Media.MediaService` is a class holding the API, the
configuration and the seven clients. Its methods update the caller's
`Params` object in place, as the source updates `params.outputFile`.

Modules:

- `Wrappers`: `Option` and `Result`.
- `Js`: the JavaScript runtime behaviour the code relies on. This covers
  truthiness, `${}` interpolation, `\w`, `String(n)` of a natural number,
  and `path.basename`.
- `Errors`: thrown values and their `String()` form.
- `Constants`: `src/const/index.ts`.
- `MediaText`: the pure parts of the media service.
- `VoiceClone`: `src/api/voice-clone.ts`.
- `Media`: the `MediaService` class.

Some behaviour is stated by the model as the code does it:

- `queryVideoGeneration` treats every status other than `"Success"` as
  still processing. That includes a failed task, so it is reported as still
  processing (`MediaText.QueryDescriptor`).
- A URL audio file is saved to `cwd/temp/<basename>`. Two URLs with the same
  basename therefore share one temporary file (`VoiceClone.TempFilesCollide`).
  Nothing in `src/api/voice-clone.ts:35` makes the temporary path unique.
- A failed demo download or write still ends the clone successfully, with
  the bare voice id.

## Model

| member | source | states |
|---|---|---|
| Js.NumberText | src/services/media-service.ts:121 | `String(Date.now())` is a non-empty run of decimal digits. It starts with `0` exactly when the number is zero, so there are no leading zeros. |
| Js.DigitsValueOfNumberText | src/services/media-service.ts:121 | Reading the decimal text of a clock value back gives the same number. |
| Js.Basename | src/api/voice-clone.ts:35 | `path.basename` returns a piece with no `/` in it. |
| Js.BasenameOfJoin | src/api/voice-clone.ts:35 | The basename of `dir + "/" + name` is `name` whenever `name` is a non-empty segment. |
| Constants.ResourceModesDistinct | src/const/index.ts:12-14 | The three resource modes are pairwise different. In particular `local` and `base64` are not the URL mode. |
| Constants.TransportModesDistinct | src/const/index.ts:17-36 | The three transport modes are pairwise different, and the default transport mode is one of them. |
| Constants.DefaultVideoModelsValid | src/const/index.ts:25-52 | Both default video models (`T2V-01` and `MiniMax-Hailuo-02`) are in the list of valid video models. |
| Constants.DefaultImageModelValid | src/const/index.ts:24-53 | The default image model is in the list of valid image models. |
| Constants.ValidVideoModelsDistinct | src/const/index.ts:52 | The valid video models are listed without repetition. |
| MediaText.WrapError | src/services/media-service.ts:259-266 | The wrapped error is a plain `Error` whose message starts with the operation's message and `": "`. The rest is the cause's own message when the cause is an `Error`, and its `String()` form otherwise. |
| MediaText.ReplaceNonWord | src/services/media-service.ts:120 | Replacing `[^\w]` keeps the length. Each character is kept when it is a word character and becomes `_` otherwise. |
| MediaText.PromptPrefix | src/services/media-service.ts:120 | The prompt prefix has length min(20, prompt length). It is made only of word characters, and each one is the prompt's own character or `_`. |
| MediaText.PromptPrefixIdempotent | src/services/media-service.ts:120 | Taking the prefix of a prefix changes nothing. |
| MediaText.OutputFileNameTimestamp | src/services/media-service.ts:121 | The generated name ends with `_` followed by the clock reading. Parsing the text after the last `_` gives back that reading. |
| MediaText.OutputFileNameWordChars | src/services/media-service.ts:119-122 | The generated name starts with its kind and `_`. When the kind is all word characters, the whole name is too. |
| MediaText.ParseRender | src/services/media-service.ts:147-218 | Each of the four result texts (task submitted, video URL, video saved, still processing) can be parsed back to the descriptor and payload that produced it. |
| MediaText.RenderInjective | src/services/media-service.ts:147-218 | Two different results never produce the same text. |
| MediaText.GenerateVideoDescriptor | src/services/media-service.ts:147-174 | Asynchronous mode always reports the submitted task id. Without it, URL mode reports the video URL, and any other or unset resource mode reports the saved path. Each of these holds in both directions. |
| MediaText.QueryDescriptor | src/services/media-service.ts:189-219 | The result is "still processing" exactly when the status is not `"Success"`, and it carries the caller's task id. Otherwise URL mode gives the URL and any other mode gives the path, in both directions. |
| Js.Truthy | src/api/voice-clone.ts:19-25 | `!value` for an optional string: undefined and the empty string are falsy, any other string is truthy. |
| Js.Interpolate | src/services/media-service.ts:152-170 | `${value}` gives the string itself, or `"undefined"` for a missing field. |
| Errors.ErrorText | src/api/voice-clone.ts:59 | `String(error)` of an Error: the message alone when the name is empty, the name alone when the message is empty, and otherwise the name, `": "` and the message. |
| Errors.Stringify | src/api/voice-clone.ts:145 | `String(e)`: a non-Error is its own text. A MinimaxRequestError's text starts with `MinimaxRequestError`, any other Error's with its name when that is not empty, and an Error with a non-empty message ends with it. |
| MediaText.OutputFileName | src/services/media-service.ts:121 | `<kind>_<prompt prefix>_<now>`: it starts with the kind and `_`, ends with `_` and the clock reading, and holds the prompt prefix in between. |
| MediaText.Render | src/services/media-service.ts:147-218 | Each reply text is its branch's fixed prefix, then the embedded task id, URL or path, then the branch's fixed suffix where it has one. |
| VoiceClone.TempFilePath | src/api/voice-clone.ts:35 | The temporary file for a URL starts with `cwd + "/temp"`. |
| VoiceClone.TempFileInTempDirectory | src/api/voice-clone.ts:35 | The temporary path is `cwd + "/temp"` exactly when the URL has no basename. Otherwise it is `cwd + "/temp/" + basename`, a direct child of the `temp` directory. |
| VoiceClone.TempFileKeepsBasename | src/api/voice-clone.ts:35 | The temporary file has the URL's basename, whenever that basename is not empty. |
| VoiceClone.TempFilesCollide | src/api/voice-clone.ts:35 | Any two URLs with the same basename get the same temporary path. |
| VoiceClone.TwoUrlsOneTempFile | src/api/voice-clone.ts:35 | Two concrete, different URLs ending in `x.wav` share one temporary file. |
| VoiceClone.StagedFile | src/api/voice-clone.ts:31-75 | Staging succeeds exactly when fetching and saving (URL) or resolving (local) succeeds. It then yields the temporary path or the resolved path. Otherwise it fails with a MinimaxRequestError prefixed by the matching "Failed to download audio from URL: " or "Failed to read local file: ". |
| VoiceClone.FileIdOf | src/api/voice-clone.ts:86-89 | There is a file id exactly when the upload reply holds a truthy `file.file_id`, and that id is non-empty. |
| VoiceClone.Rethrown | src/api/voice-clone.ts:141-146 | The outer catch always throws a MinimaxRequestError. Its own errors pass through unchanged, and any other fault becomes "Error occurred while cloning voice: " followed by its `String()` form. |
| VoiceClone.RethrownOnce | src/api/voice-clone.ts:141-146 | Rethrowing is idempotent, so an error is never wrapped twice by the same catch. |
| VoiceClone.ClonePayloadFor | src/api/voice-clone.ts:92-101 | The clone payload always holds `file_id` and `voice_id`. It holds `text` and `model = speech-02-hd` exactly when demo text is given, and no other keys. |
| VoiceClone.StagingCalls | src/api/voice-clone.ts:31-75 | Staging first fetches the URL or resolves the local file. It posts nothing to the gateway and downloads no demo audio. |
| VoiceClone.StagingWritesTempAfterFetch | src/api/voice-clone.ts:34-50 | The temporary file is written only for a URL, only after the fetch worked, and at that URL's temporary path. |
| VoiceClone.SaveDemoRun | src/api/voice-clone.ts:119-140 | The demo step first asks `buildOutputFile` for a unique `voice_clone` `.wav` path. It fails exactly when that fails, and rethrows that fault. Any result it returns starts with the voice id. |
| VoiceClone.CloneVoiceRun | src/api/voice-clone.ts:17-147 | Any call implies a valid request. Every failure is a MinimaxRequestError. A success starts with the voice id, or is the clone reply's demo URL in URL mode. |
| VoiceClone.StagingFailureSurfaces | src/api/voice-clone.ts:58-74 | A failed local read or URL download ends the clone with that step's own MinimaxRequestError, unchanged by the outer catch at lines 141-143. Only the staging calls are issued, and no upload. |
| VoiceClone.SavingIssuesNoPost | src/api/voice-clone.ts:119-140 | Saving the demo posts nothing. It downloads exactly the demo URL, and only once an output path was chosen. |
| VoiceClone.ValidationFirst | src/api/voice-clone.ts:19-25 | A missing or empty audio file, then a missing or empty voice id, fails with its MinimaxRequestError before any call. Any call at all implies a valid request. |
| VoiceClone.UploadRequest | src/api/voice-clone.ts:77-83 | The upload is posted exactly when the request is valid and staging succeeded. It sends the staged path with purpose `voice_clone`. |
| VoiceClone.NoCloneWithoutFileId | src/api/voice-clone.ts:85-104 | A successful upload without a file id ends with "Failed to get file ID from upload response". A clone is posted exactly when the upload gave a file id, and it comes right after the upload. |
| VoiceClone.ClonePayloadShape | src/api/voice-clone.ts:92-104 | Every clone call carries the payload built from the upload's file id, the voice id and the demo text. |
| VoiceClone.DownloadOnlyOutsideUrlMode | src/api/voice-clone.ts:106-124 | The demo audio is downloaded exactly when the clone reply has a demo URL, the API is not in URL mode, and an output path was chosen. It is the reply's URL that is downloaded. |
| VoiceClone.NoDemoReturnsVoiceId | src/api/voice-clone.ts:106-111 | A clone reply without demo audio returns the voice id and downloads nothing. |
| VoiceClone.UrlModeReturnsDemoUrl | src/api/voice-clone.ts:113-117 | In URL mode the demo URL itself is returned and nothing is downloaded. |
| VoiceClone.FailedDemoKeepsVoiceId | src/api/voice-clone.ts:122-140 | After a download, a failed download or write still returns the bare voice id. A complete save returns "<voice id> (Demo audio: <path>)". |
| VoiceClone.ErrorsAreRequestErrors | src/api/voice-clone.ts:141-146 | Everything the pipeline throws is a MinimaxRequestError. A failed upload or clone post is rethrown through the outer catch. |
| VoiceClone.VoiceCloneApi.constructor | src/api/voice-clone.ts:13-15 | The client keeps the API it is given. |
| VoiceClone.VoiceCloneApi.StageFile | src/api/voice-clone.ts:31-75 | The staging step returns `StagedFile` and issues the staging calls. |
| VoiceClone.VoiceCloneApi.SaveDemo | src/api/voice-clone.ts:119-140 | The demo-saving step returns the result and calls of `SaveDemoRun`. |
| VoiceClone.VoiceCloneApi.CloneVoice | src/api/voice-clone.ts:17-147 | The imperative pipeline returns exactly the result and call sequence of `CloneVoiceRun`, so every lemma above holds of it. |
| Media.Surface | src/services/media-service.ts:72-77 | The try/catch around a delegated call passes a value through unchanged and turns a fault into `wrapError(message, fault)`. |
| Media.PendingRepliesLookAlike | src/services/media-service.ts:189-219 | Every reply whose status is not `"Success"`, a failed task included, gives the same text. That text reads back as "still processing" with the caller's task id. |
| Media.CloneFailuresNameTheOperation | src/services/media-service.ts:100-107 | Every clone failure after the initialisation check is an `Error` reading "Failed to clone voice: ...". This includes the validation messages. A non-MinimaxRequestError upload fault is wrapped once per layer. |
| Media.MediaService.constructor | src/services/media-service.ts:29-39 | Every client is built on the given API, and the configuration starts with no resource mode. |
| Media.MediaService.Initialize | src/services/media-service.ts:45-48 | Initialising stores the configuration and changes nothing else, so the clients stay wired to the service's API. |
| Media.MediaService.UpdateApi | src/services/media-service.ts:54-63 | Every client is rebuilt on the new API, with a fresh voice-clone client, and the configuration is kept. |
| Media.MediaService.GenerateSpeech | src/services/media-service.ts:70-78 | A failed initialisation check is thrown unwrapped. Otherwise the TTS result passes through and its fault is wrapped with "Failed to generate speech". |
| Media.MediaService.ListVoices | src/services/media-service.ts:85-93 | The same, for the voice list and "Failed to get voice list". |
| Media.MediaService.CloneVoice | src/services/media-service.ts:100-108 | With every client wired to the service's API, it first runs the initialisation check. After that it issues exactly the calls of `CloneVoiceRun` on the service's API, and returns that run's result with its fault wrapped with "Failed to clone voice". |
| Media.MediaService.FillOutputFile | src/services/media-service.ts:119-122 | A truthy output file is kept. A falsy one becomes `<kind>_<prompt prefix>_<now>`. A missing prompt throws the `substring` TypeError and leaves the parameters unchanged. |
| Media.MediaService.GenerateImage | src/services/media-service.ts:115-130 | It fills in the output file as `image_...` and then returns the image client's result. Its failures, including the missing-prompt TypeError, are wrapped with "Failed to generate image". |
| Media.MediaService.GenerateVideo | src/services/media-service.ts:137-179 | It fills in the output file as `video_...`. It then returns the text of `GenerateVideoDescriptor` for the async flag, the configured resource mode and the video client's result. Failures are wrapped with "Failed to generate video". |
| Media.MediaService.QueryVideoGeneration | src/services/media-service.ts:186-223 | It returns the text of `QueryDescriptor` for the reply, the configured resource mode and the caller's task id. Failures are wrapped with "Failed to query video generation status". |
| Media.MediaService.GenerateMusic | src/services/media-service.ts:230-237 | A failed initialisation check is thrown unwrapped. Otherwise the music client's result passes through and its fault is wrapped with "Failed to generate music". |
| Media.MediaService.DesignVoice | src/services/media-service.ts:244-251 | The same, for voice design and "Failed to design voice". |

## Left out

- The MiniMax gateway, axios downloads, the file system and `process.cwd()` are inputs (`Gateway`, `Host`). `processInputFile` and `buildOutputFile` live in src/utils/file.ts, which is not part of this model; the model keeps only their result or the fault they throw.
- VoiceClone.StagedFile, VoiceClone.VoiceCloneApi.StageFile: the URL fetch and the temp-file write either succeed or fail. The promise at src/api/voice-clone.ts:47-50 waits only for the writer's `finish` and `error` events. A read-stream error in mid-transfer is not forwarded to the writer by `pipe`. So such a failure may leave `cloneVoice` unsettled, or raise an unhandled stream error, rather than throw "Failed to download audio from URL: ...". The model does not capture that non-termination.
- Js.Basename follows POSIX `path.basename`: only `/` separates segments. Windows separators and drive letters are not modelled.
- `path.join` normalisation (`..`, repeated `/`) is not modelled. The temporary path is `cwd + "/temp/" + basename`, and `temp` alone when the basename is empty.
- Creating the temp and demo directories (`mkdirSync`) is not a separate effect; a failure there counts as a failure of the step it belongs to.
- Strings are sequences of characters, not UTF-16 code units, so `substring(0, 20)` counts characters.
- The `stack` that `wrapError` copies from the cause is not modelled.
- `DEFAULT_SPEED`, `DEFAULT_VOLUME` (floating point) and the environment-variable names in src/const/index.ts are not modelled.
- `BaseService` (src/services/index.ts) is not part of this model. `checkInitialized()` is the `initCheck` input, and `initialize` is taken to store the configuration it is given, and `super.updateApi(api)` to store the new API.
- src/exceptions/index.ts is not part of this model. A MinimaxRequestError is taken to be named `MinimaxRequestError` for its `String()` form.
- The TTS, image, video, voice, music and voice-design clients are not part of this model. What they return or throw for the completed parameters is an input, so their own use of `params.outputFile` is not modelled.
- Media.MediaService.GenerateVideo: the tool envelope `{content: [{type: 'text', text}]}` is represented by its text. A video client result that is `undefined`, whose field access would throw, is not modelled.
- Media.MediaService.QueryVideoGeneration: the same envelope is represented by its text.
- A `VoiceClone.Gateway` stands for the answers of one clone: the voice-clone client keeps the one it was built with, so every `cloneVoice` through one service sees the same upload and clone replies. A sequence of clones with different replies is modelled by one client per clone, and no property relates two clones.
- `Date.now()` is the parameter `now`. Asynchronous sequencing and concurrent calls on one service are not modelled; each operation runs to completion.
- `any`-typed parameters are modelled by the fields the code reads: `prompt`, `outputFile` and `async_mode` for image and video, `taskId` for queries, and the voice-clone request fields.
