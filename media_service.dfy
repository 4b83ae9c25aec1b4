/** The media service (src/services/media-service.ts): one object that owns a
    client per media API, checks it is initialised, fills in a generated
    output-file name, delegates, and turns every failure into an Error whose
    message names the operation. The API clients other than voice cloning
    are not part of this model: what they return or throw is an input. */
module Media {
  import opened Wrappers
  import opened Js
  import opened Errors
  import opened MediaText
  import VoiceClone
  import Constants

  // The message each operation puts in front of its failures
  const SpeechFailed := "Failed to generate speech"
  const VoicesFailed := "Failed to get voice list"
  const CloneFailed := "Failed to clone voice"
  const ImageFailed := "Failed to generate image"
  const VideoFailed := "Failed to generate video"
  const QueryFailed := "Failed to query video generation status"
  const MusicFailed := "Failed to generate music"
  const DesignFailed := "Failed to design voice"

  const ImageKind := "image"
  const VideoKind := "video"

  /** What `params.prompt.substring(...)` throws when the prompt is undefined. */
  const MissingPromptFault := PlainError("TypeError", "Cannot read properties of undefined (reading 'substring')")

  /** The configuration the service reads: only the resource mode, unset
      until `initialize` stores a configuration. */
  datatype Config = Config(resourceMode: Option<string>)

  datatype ApiKind = Tts | Image | Video | Voice | Music | VoiceDesign

  /** An API client that is not part of this model, known by its kind and
      the MiniMax API it was built on. */
  datatype Client = Client(kind: ApiKind, api: VoiceClone.Gateway)

  /** The voice list `listVoices` passes back. */
  datatype VoiceList = VoiceList(systemVoices: seq<string>, voiceCloneVoices: seq<string>)

  /** The try/catch around a delegated call: the value passes through, a
      fault comes back wrapped with the operation's message. */
  function Surface<T>(message: string, outcome: Result<T, Fault>): (r: Result<T, Fault>)
    ensures r.Success? <==> outcome.Success?
    ensures r.Success? ==> r.value == outcome.value
    ensures r.Failure? ==> r.error == WrapError(message, outcome.error)
  {
    if outcome.Success? then outcome else Failure(WrapError(message, outcome.error))
  }

  /** At the service layer every failure of a clone that got past the
      initialisation check reads "Failed to clone voice: ..."; a
      MinimaxRequestError of the API (validation included) contributes its
      message, any other fault is wrapped twice, once per layer. */
  lemma CloneFailuresNameTheOperation(request: VoiceClone.Request, api: VoiceClone.Gateway, host: VoiceClone.Host)
    ensures var r := Surface(CloneFailed, VoiceClone.CloneVoiceRun(request, api, host).result);
      r.Failure? ==> r.error.PlainError? && r.error.name == "Error" && StartsWith(r.error.message, CloneFailed + ": ")
    ensures !Truthy(request.audioFile) ==>
      Surface(CloneFailed, VoiceClone.CloneVoiceRun(request, api, host).result)
        == Failure(PlainError("Error", CloneFailed + ": " + Constants.ErrorAudioFileRequired))
    ensures Truthy(request.audioFile) && !Truthy(request.voiceId) ==>
      Surface(CloneFailed, VoiceClone.CloneVoiceRun(request, api, host).result)
        == Failure(PlainError("Error", CloneFailed + ": " + VoiceClone.VoiceIdRequired))
    ensures VoiceClone.Posted(VoiceClone.CloneVoiceRun(request, api, host).calls, VoiceClone.UploadEndpoint)
            && api.uploadReply.Failure? && !api.uploadReply.error.RequestError? ==>
      Surface(CloneFailed, VoiceClone.CloneVoiceRun(request, api, host).result)
        == Failure(PlainError("Error", CloneFailed + ": " + VoiceClone.CloneFailed + Stringify(api.uploadReply.error)))
  {
    VoiceClone.ErrorsAreRequestErrors(request, api, host);
    VoiceClone.ValidationFirst(request, api, host);
    if api.uploadReply.Failure? {
      var e := api.uploadReply.error;
      assert CloneFailed + ": " + (VoiceClone.CloneFailed + Stringify(e))
          == CloneFailed + ": " + VoiceClone.CloneFailed + Stringify(e);
    }
  }

  /** A poll keeps no state and reads nothing of a reply that is not done:
      every reply whose status is not "Success" -- a task still queued and a
      failed task alike -- yields the same text, which names the task the
      caller asked about. */
  lemma PendingRepliesLookAlike(r1: QueryResult, r2: QueryResult, mode: Option<string>, taskId: Option<string>)
    requires r1.status != Some(SuccessStatus) && r2.status != Some(SuccessStatus)
    ensures Render(QueryDescriptor(r1, mode, taskId)) == Render(QueryDescriptor(r2, mode, taskId))
    ensures Parse(Render(QueryDescriptor(r1, mode, taskId))) == Some(StillProcessing(Interpolate(taskId)))
  {
    ParseRender(QueryDescriptor(r1, mode, taskId));
  }

  /** The parameter bag the caller passes to `generateImage` / `generateVideo`;
      the service fills in `outputFile` when it is missing. */
  class Params {
    var prompt: Option<string>
    var outputFile: Option<string>
    var asyncMode: bool

    constructor(prompt: Option<string>, outputFile: Option<string>, asyncMode: bool)
      ensures this.prompt == prompt && this.outputFile == outputFile && this.asyncMode == asyncMode
    {
      this.prompt := prompt;
      this.outputFile := outputFile;
      this.asyncMode := asyncMode;
    }
  }

  class MediaService {
    var api: VoiceClone.Gateway
    var config: Config
    var ttsApi: Client
    var imageApi: Client
    var videoApi: Client
    var voiceApi: Client
    var musicApi: Client
    var voiceDesignApi: Client
    var voiceCloneApi: VoiceClone.VoiceCloneApi

    /** Every client is built on the service's current API. */
    predicate Wired()
      reads this
    {
      && ttsApi == Client(Tts, api)
      && imageApi == Client(Image, api)
      && videoApi == Client(Video, api)
      && voiceApi == Client(Voice, api)
      && musicApi == Client(Music, api)
      && voiceDesignApi == Client(VoiceDesign, api)
      && voiceCloneApi.api == api
    }

    constructor(api: VoiceClone.Gateway)
      ensures Wired() && this.api == api && fresh(voiceCloneApi)
      ensures config == Config(None)
    {
      this.api := api;
      ttsApi := Client(Tts, api);
      imageApi := Client(Image, api);
      videoApi := Client(Video, api);
      voiceCloneApi := new VoiceClone.VoiceCloneApi(api);
      voiceApi := Client(Voice, api);
      musicApi := Client(Music, api);
      voiceDesignApi := Client(VoiceDesign, api);
      config := Config(None);
    }

    /** `initialize(config)`: stores the configuration and changes nothing else. */
    method Initialize(config: Config)
      modifies this`config
      ensures this.config == config
      ensures Wired() <==> old(Wired())
    {
      this.config := config;
    }

    /** `updateApi(api)`: every client is rebuilt on the new API; the
      configuration is kept. */
    method UpdateApi(api: VoiceClone.Gateway)
      modifies this
      ensures Wired() && this.api == api && fresh(voiceCloneApi)
      ensures config == old(config)
    {
      this.api := api;
      ttsApi := Client(Tts, api);
      imageApi := Client(Image, api);
      videoApi := Client(Video, api);
      voiceCloneApi := new VoiceClone.VoiceCloneApi(api);
      voiceApi := Client(Voice, api);
      musicApi := Client(Music, api);
      voiceDesignApi := Client(VoiceDesign, api);
    }

    /** `generateSpeech(params)`, given what the TTS client returns or throws.
        Like every operation below, a failed initialisation check is thrown
        as it is, since that check sits outside the try. */
    method GenerateSpeech(initCheck: Option<Fault>, reply: Result<string, Fault>) returns (result: Result<string, Fault>)
      ensures initCheck.Some? ==> result == Failure(initCheck.value)
      ensures initCheck.None? ==> result == Surface(SpeechFailed, reply)
    {
      if initCheck.Some? {
        return Failure(initCheck.value);
      }
      result := Surface(SpeechFailed, reply);
    }

    /** `listVoices(params)`, given what the voice client returns or throws. */
    method ListVoices(initCheck: Option<Fault>, reply: Result<VoiceList, Fault>) returns (result: Result<VoiceList, Fault>)
      ensures initCheck.Some? ==> result == Failure(initCheck.value)
      ensures initCheck.None? ==> result == Surface(VoicesFailed, reply)
    {
      if initCheck.Some? {
        return Failure(initCheck.value);
      }
      result := Surface(VoicesFailed, reply);
    }

    /** `cloneVoice(params)`: the voice-clone pipeline, its failures wrapped
        with "Failed to clone voice". */
    method CloneVoice(request: VoiceClone.Request, host: VoiceClone.Host, initCheck: Option<Fault>)
      returns (result: Result<string, Fault>, calls: seq<VoiceClone.Call>)
      requires Wired()
      ensures initCheck.Some? ==> result == Failure(initCheck.value) && calls == []
      ensures initCheck.None? ==>
                && calls == VoiceClone.CloneVoiceRun(request, api, host).calls
                && result == Surface(CloneFailed, VoiceClone.CloneVoiceRun(request, api, host).result)
    {
      if initCheck.Some? {
        return Failure(initCheck.value), [];
      }
      var outcome;
      outcome, calls := voiceCloneApi.CloneVoice(request, host);
      result := Surface(CloneFailed, outcome);
    }

    /** Lines 119-122 and 141-144: a falsy `outputFile` is replaced by a name
        made of the kind, the prompt's prefix and the clock reading; a given
        one is kept. Reading the prefix of an undefined prompt throws. */
    method FillOutputFile(params: Params, kind: string, now: nat) returns (thrown: Option<Fault>)
      modifies params`outputFile
      ensures Truthy(old(params.outputFile)) ==> thrown.None? && params.outputFile == old(params.outputFile)
      ensures !Truthy(old(params.outputFile)) && params.prompt.Some? ==>
                thrown.None? && params.outputFile == Some(OutputFileName(kind, params.prompt.value, now))
      ensures !Truthy(old(params.outputFile)) && params.prompt.None? ==>
                thrown == Some(MissingPromptFault) && params.outputFile == old(params.outputFile)
    {
      if !Truthy(params.outputFile) {
        if params.prompt.None? {
          return Some(MissingPromptFault);
        }
        params.outputFile := Some(OutputFileName(kind, params.prompt.value, now));
      }
      return None;
    }

    /** `generateImage(params)`, with `Date.now()` as `now` and what the image
        client returns or throws for the completed parameters as `reply`. */
    method GenerateImage(params: Params, now: nat, initCheck: Option<Fault>, reply: Result<seq<string>, Fault>)
      returns (result: Result<seq<string>, Fault>)
      modifies params`outputFile
      ensures initCheck.Some? ==> result == Failure(initCheck.value) && params.outputFile == old(params.outputFile)
      ensures initCheck.None? && Truthy(old(params.outputFile)) ==> params.outputFile == old(params.outputFile)
      ensures initCheck.None? && !Truthy(old(params.outputFile)) && params.prompt.Some? ==>
                params.outputFile == Some(OutputFileName(ImageKind, params.prompt.value, now))
      ensures initCheck.None? && !Truthy(old(params.outputFile)) && params.prompt.None? ==>
                result == Failure(WrapError(ImageFailed, MissingPromptFault)) && params.outputFile == old(params.outputFile)
      ensures initCheck.None? && (Truthy(old(params.outputFile)) || params.prompt.Some?) ==>
                result == Surface(ImageFailed, reply)
    {
      if initCheck.Some? {
        return Failure(initCheck.value);
      }
      var thrown := FillOutputFile(params, ImageKind, now);
      if thrown.Some? {
        return Failure(WrapError(ImageFailed, thrown.value));
      }
      result := Surface(ImageFailed, reply);
    }

    /** `generateVideo(params)`: fills in the output file as `generateImage`
        does, then describes the video client's result -- the submitted task
        in asynchronous mode, otherwise the URL or the saved path by the
        configured resource mode. */
    method GenerateVideo(params: Params, now: nat, initCheck: Option<Fault>, reply: Result<VideoResult, Fault>)
      returns (result: Result<string, Fault>)
      modifies params`outputFile
      ensures initCheck.Some? ==> result == Failure(initCheck.value) && params.outputFile == old(params.outputFile)
      ensures initCheck.None? && Truthy(old(params.outputFile)) ==> params.outputFile == old(params.outputFile)
      ensures initCheck.None? && !Truthy(old(params.outputFile)) && params.prompt.Some? ==>
                params.outputFile == Some(OutputFileName(VideoKind, params.prompt.value, now))
      ensures initCheck.None? && !Truthy(old(params.outputFile)) && params.prompt.None? ==>
                result == Failure(WrapError(VideoFailed, MissingPromptFault)) && params.outputFile == old(params.outputFile)
      ensures initCheck.None? && (Truthy(old(params.outputFile)) || params.prompt.Some?) && reply.Failure? ==>
                result == Failure(WrapError(VideoFailed, reply.error))
      ensures initCheck.None? && (Truthy(old(params.outputFile)) || params.prompt.Some?) && reply.Success? ==>
                result == Success(Render(GenerateVideoDescriptor(params.asyncMode, config.resourceMode, reply.value)))
    {
      if initCheck.Some? {
        return Failure(initCheck.value);
      }
      var thrown := FillOutputFile(params, VideoKind, now);
      if thrown.Some? {
        return Failure(WrapError(VideoFailed, thrown.value));
      }
      if reply.Failure? {
        return Failure(WrapError(VideoFailed, reply.error));
      }
      var video := reply.value;
      var text: string;
      if params.asyncMode {
        text := SubmittedPrefix + Interpolate(video.taskId) + SubmittedSuffix;
      } else if config.resourceMode == Some(Constants.ResourceModeUrl) {
        text := UrlPrefix + Interpolate(video.videoUrl);
      } else {
        text := SavedPrefix + Interpolate(video.videoPath);
      }
      return Success(text);
    }

    /** `queryVideoGeneration(params)`: one poll, described from the reply's
        status and the configured resource mode; `taskId` is the caller's. */
    method QueryVideoGeneration(taskId: Option<string>, initCheck: Option<Fault>, reply: Result<QueryResult, Fault>)
      returns (result: Result<string, Fault>)
      ensures initCheck.Some? ==> result == Failure(initCheck.value)
      ensures initCheck.None? && reply.Failure? ==> result == Failure(WrapError(QueryFailed, reply.error))
      ensures initCheck.None? && reply.Success? ==>
                result == Success(Render(QueryDescriptor(reply.value, config.resourceMode, taskId)))
    {
      if initCheck.Some? {
        return Failure(initCheck.value);
      }
      if reply.Failure? {
        return Failure(WrapError(QueryFailed, reply.error));
      }
      var query := reply.value;
      var text: string;
      if query.status == Some(SuccessStatus) {
        if config.resourceMode == Some(Constants.ResourceModeUrl) {
          text := UrlPrefix + Interpolate(query.videoUrl);
        } else {
          text := SavedPrefix + Interpolate(query.videoPath);
        }
      } else {
        text := ProcessingPrefix + Interpolate(taskId) + ProcessingSuffix;
      }
      return Success(text);
    }

    /** `generateMusic(params)`, given what the music client returns or throws. */
    method GenerateMusic(initCheck: Option<Fault>, reply: Result<string, Fault>) returns (result: Result<string, Fault>)
      ensures initCheck.Some? ==> result == Failure(initCheck.value)
      ensures initCheck.None? ==> result == Surface(MusicFailed, reply)
    {
      if initCheck.Some? {
        return Failure(initCheck.value);
      }
      result := Surface(MusicFailed, reply);
    }

    /** `designVoice(params)`, given what the voice-design client returns or throws. */
    method DesignVoice(initCheck: Option<Fault>, reply: Result<string, Fault>) returns (result: Result<string, Fault>)
      ensures initCheck.Some? ==> result == Failure(initCheck.value)
      ensures initCheck.None? ==> result == Surface(DesignFailed, reply)
    {
      if initCheck.Some? {
        return Failure(initCheck.value);
      }
      result := Surface(DesignFailed, reply);
    }
  }
}
