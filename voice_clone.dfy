/** The voice-clone pipeline (src/api/voice-clone.ts): validate, stage the
    audio file, upload it, submit the clone, and hand back the voice id or
    the demo audio. Every effect outside the code -- the MiniMax gateway,
    HTTP downloads, the file system -- is an outcome given as input, and the
    method returns the calls it issued, in order. */
module VoiceClone {
  import opened Wrappers
  import opened Js
  import opened Errors
  import Constants

  const UploadEndpoint := "/v1/files/upload"
  const CloneEndpoint := "/v1/voice_clone"
  const UploadPurpose := "voice_clone"
  const DemoCategory := "voice_clone"
  const DemoExtension := "wav"
  /** `buildOutputFile` is asked for a name of its own for the demo audio. */
  const DemoUniqueName := true

  const VoiceIdRequired := "Voice ID is required"
  const FileIdMissing := "Failed to get file ID from upload response"
  const UrlReadFailed := "Failed to download audio from URL: "
  const LocalReadFailed := "Failed to read local file: "
  const CloneFailed := "Error occurred while cloning voice: "

  /** The caller's request; `audioFile` is a local path or, when `isUrl`, a URL. */
  datatype Request = Request(
    audioFile: Option<string>,
    voiceId: Option<string>,
    text: Option<string>,
    isUrl: bool,
    outputDirectory: Option<string>)

  /** The MiniMax API the class is built on, given by what it answers: the
      `file.file_id` of the upload reply, the `demo_audio` of the clone reply
      (each None when missing, or the fault `post` throws), and the resource
      mode it is configured with. */
  datatype Gateway = Gateway(
    uploadReply: Result<Option<string>, Fault>,
    cloneReply: Result<Option<string>, Fault>,
    resourceMode: string)

  /** The outcomes of the other effects: the working directory; fetching the
      audio URL as a stream and saving it (None when it worked); resolving a
      local audio file; choosing the demo output path; downloading the demo
      audio and writing it. */
  datatype Host = Host(
    cwd: string,
    fetchAudio: Option<Fault>,
    saveTemp: Option<Fault>,
    resolveLocal: Result<string, Fault>,
    outputFile: Result<string, Fault>,
    downloadDemo: Option<Fault>,
    writeDemo: Option<Fault>)

  /** The body of a gateway call: the multipart upload form, or the JSON clone payload. */
  datatype Body = UploadForm(filePath: string, purpose: string) | ClonePayload(fields: map<string, string>)

  /** One effect the pipeline asks for. */
  datatype Call =
    | FetchAudio(url: string)
    | SaveTemp(path: string)
    | ResolveLocal(file: string)
    | Post(endpoint: string, body: Body)
    | BuildOutputFile(category: string, directory: Option<string>, extension: string, unique: bool)
    | DownloadDemo(url: string)
    | WriteDemo(path: string)

  /** Both required inputs are present and not empty. */
  predicate Validated(request: Request) {
    Truthy(request.audioFile) && Truthy(request.voiceId)
  }

  /** `path.join(cwd, 'temp', path.basename(url))`, for a `cwd` that is already normalised. */
  function TempFilePath(cwd: string, url: string): (r: string)
    ensures StartsWith(r, cwd + "/temp")
  {
    var name := Basename(url);
    cwd + "/temp" + (if name == "" then "" else "/" + name)
  }

  /** The temporary file lies in the `temp` directory itself: the path is
      that directory when the URL has no base name, and a direct child of it
      otherwise. */
  lemma TempFileInTempDirectory(cwd: string, url: string)
    ensures TempFilePath(cwd, url) == cwd + "/temp" <==> Basename(url) == ""
    ensures Basename(url) != "" ==> TempFilePath(cwd, url) == cwd + "/temp/" + Basename(url)
    ensures TempFilePath(cwd, url) == cwd + "/temp" || StartsWith(TempFilePath(cwd, url), cwd + "/temp/")
  {
    var name := Basename(url);
    if name != "" {
      assert TempFilePath(cwd, url) == (cwd + "/temp/") + name;
    }
  }

  /** The temporary copy of a downloaded audio file keeps the URL's base name. */
  lemma TempFileKeepsBasename(cwd: string, url: string)
    requires Basename(url) != ""
    ensures Basename(TempFilePath(cwd, url)) == Basename(url)
  {
    var name := Basename(url);
    assert TempFilePath(cwd, url) == (cwd + "/temp") + "/" + name;
    BasenameOfJoin(cwd + "/temp", name);
  }

  /** The temporary path depends only on the base name: nothing makes it
      unique to the URL. */
  lemma TempFilesCollide(cwd: string, u1: string, u2: string)
    requires Basename(u1) == Basename(u2)
    ensures TempFilePath(cwd, u1) == TempFilePath(cwd, u2)
  {
  }

  /** Two different URLs ending in the same file name share one temporary file. */
  lemma TwoUrlsOneTempFile(cwd: string)
    ensures "https://a.example/x.wav" != "https://b.example/x.wav"
    ensures TempFilePath(cwd, "https://a.example/x.wav") == TempFilePath(cwd, "https://b.example/x.wav")
  {
    var u1, u2 := "https://a.example/x.wav", "https://b.example/x.wav";
    assert u1[8] != u2[8];
    assert u1 == "https://a.example" + ['/'] + "x.wav";
    assert u2 == "https://b.example" + ['/'] + "x.wav";
    assert TrimEnd(u1, '/') == u1 && TrimEnd(u2, '/') == u2;
    AfterLastOfJoin("https://a.example", '/', "x.wav");
    AfterLastOfJoin("https://b.example", '/', "x.wav");
    TempFilesCollide(cwd, u1, u2);
  }

  /** Step 1 (voice-clone.ts:29-75): the path handed to the upload, or the
      MinimaxRequestError that ends the clone. */
  function StagedFile(audioFile: string, isUrl: bool, host: Host): (r: Result<string, Fault>)
    ensures r.Failure? ==> r.error.RequestError?
    ensures isUrl && r.Failure? ==> StartsWith(r.error.message, UrlReadFailed)
    ensures !isUrl && r.Failure? ==> StartsWith(r.error.message, LocalReadFailed)
    ensures isUrl ==> (r.Success? <==> host.fetchAudio.None? && host.saveTemp.None?)
    ensures !isUrl ==> (r.Success? <==> host.resolveLocal.Success?)
    ensures isUrl && r.Success? ==> r.value == TempFilePath(host.cwd, audioFile)
    ensures !isUrl && r.Success? ==> r.value == host.resolveLocal.value
  {
    if isUrl then
      if host.fetchAudio.Some? then Failure(RequestError(UrlReadFailed + Stringify(host.fetchAudio.value)))
      else if host.saveTemp.Some? then Failure(RequestError(UrlReadFailed + Stringify(host.saveTemp.value)))
      else Success(TempFilePath(host.cwd, audioFile))
    else
      if host.resolveLocal.Failure? then Failure(RequestError(LocalReadFailed + Stringify(host.resolveLocal.error)))
      else Success(host.resolveLocal.value)
  }

  /** The calls Step 1 issues before it succeeds or fails: it reads the
      audio source first, writes the temporary file only after a successful
      fetch, and neither posts to the gateway nor downloads demo audio. */
  function StagingCalls(audioFile: string, isUrl: bool, host: Host): (r: seq<Call>)
    ensures |r| >= 1 && r[0] == (if isUrl then FetchAudio(audioFile) else ResolveLocal(audioFile))
    ensures forall c :: c in r ==> !c.Post? && !c.DownloadDemo?
  {
    if isUrl then
      if host.fetchAudio.Some? then [FetchAudio(audioFile)]
      else [FetchAudio(audioFile), SaveTemp(TempFilePath(host.cwd, audioFile))]
    else [ResolveLocal(audioFile)]
  }

  /** `uploadResponse?.file?.file_id`, kept only when truthy. */
  function FileIdOf(reply: Result<Option<string>, Fault>): (r: Option<string>)
    ensures r.Some? <==> reply.Success? && Truthy(reply.value)
    ensures r.Some? ==> r.value != "" && reply.value == Some(r.value)
  {
    if reply.Success? && Truthy(reply.value) then reply.value else None
  }

  /** The outer catch: a MinimaxRequestError passes through unchanged; any
      other fault becomes one, wrapped once with the clone's message. */
  function Rethrown(e: Fault): (r: Fault)
    ensures r.RequestError?
    ensures e.RequestError? ==> r == e
    ensures !e.RequestError? ==> r.message == CloneFailed + Stringify(e)
  {
    if e.RequestError? then e else RequestError(CloneFailed + Stringify(e))
  }

  /** Passing a fault through the outer catch twice is passing it once. */
  lemma RethrownOnce(e: Fault)
    ensures Rethrown(Rethrown(e)) == Rethrown(e)
  {
  }

  /** The clone payload: always the file id and the voice id; the demo text
      and the default speech model exactly when the request has a text. */
  predicate PayloadFor(fields: map<string, string>, fileId: string, voiceId: string, text: Option<string>) {
    && fields.Keys == {"file_id", "voice_id"} + (if Truthy(text) then {"text", "model"} else {})
    && fields["file_id"] == fileId
    && fields["voice_id"] == voiceId
    && (Truthy(text) ==> fields["text"] == text.value && fields["model"] == Constants.DefaultSpeechModel)
  }

  /** The payload object built at voice-clone.ts:92-101. */
  function ClonePayloadFor(fileId: string, voiceId: string, text: Option<string>): (fields: map<string, string>)
    ensures PayloadFor(fields, fileId, voiceId, text)
  {
    var base := map["file_id" := fileId, "voice_id" := voiceId];
    if Truthy(text) then base["text" := text.value]["model" := Constants.DefaultSpeechModel] else base
  }

  /** The result when the demo audio was saved. */
  function DemoDescriptor(voiceId: string, path: string): string {
    voiceId + " (Demo audio: " + path + ")"
  }

  /** What one clone does: its result (a string, or the fault thrown) and
      the calls it issued, in order. */
  datatype Run = Run(result: Result<string, Fault>, calls: seq<Call>)

  /** The specification of `cloneVoice`, step by step as the source takes them. */
  function CloneVoiceRun(request: Request, api: Gateway, host: Host): (r: Run)
    ensures r.calls != [] ==> Validated(request)
    ensures r.result.Failure? ==> r.result.error.RequestError?
    ensures r.result.Success? ==>
              && Validated(request)
              && (|| StartsWith(r.result.value, request.voiceId.value)
                  || (api.resourceMode == Constants.ResourceModeUrl && api.cloneReply == Success(Some(r.result.value))))
  {
    if !Truthy(request.audioFile) then
      Run(Failure(RequestError(Constants.ErrorAudioFileRequired)), [])
    else if !Truthy(request.voiceId) then
      Run(Failure(RequestError(VoiceIdRequired)), [])
    else
      var voiceId := request.voiceId.value;
      var staged := StagedFile(request.audioFile.value, request.isUrl, host);
      var staging := StagingCalls(request.audioFile.value, request.isUrl, host);
      if staged.Failure? then
        Run(Failure(staged.error), staging)
      else
        var uploading := staging + [Post(UploadEndpoint, UploadForm(staged.value, UploadPurpose))];
        if api.uploadReply.Failure? then
          Run(Failure(Rethrown(api.uploadReply.error)), uploading)
        else if FileIdOf(api.uploadReply).None? then
          Run(Failure(RequestError(FileIdMissing)), uploading)
        else
          var payload := ClonePayloadFor(FileIdOf(api.uploadReply).value, voiceId, request.text);
          var cloning := uploading + [Post(CloneEndpoint, ClonePayload(payload))];
          if api.cloneReply.Failure? then
            Run(Failure(Rethrown(api.cloneReply.error)), cloning)
          else if !Truthy(api.cloneReply.value) then
            Run(Success(voiceId), cloning)
          else if api.resourceMode == Constants.ResourceModeUrl then
            Run(Success(api.cloneReply.value.value), cloning)
          else
            var saving := SaveDemoRun(voiceId, api.cloneReply.value.value, request.outputDirectory, host);
            Run(saving.result, cloning + saving.calls)
  }

  /** Step 4 (voice-clone.ts:119-140), for a demo audio URL outside URL
      mode: choose the output path, download, write. A failure to choose the
      path is rethrown; a failed download or write still reports the voice id. */
  function SaveDemoRun(voiceId: string, demoAudio: string, outputDirectory: Option<string>, host: Host): (r: Run)
    ensures r.result.Failure? <==> host.outputFile.Failure?
    ensures r.result.Failure? ==> r.result.error == Rethrown(host.outputFile.error)
    ensures r.result.Success? ==> StartsWith(r.result.value, voiceId)
    ensures |r.calls| >= 1 && r.calls[0] == BuildOutputFile(DemoCategory, outputDirectory, DemoExtension, DemoUniqueName)
  {
    var building := [BuildOutputFile(DemoCategory, outputDirectory, DemoExtension, DemoUniqueName)];
    if host.outputFile.Failure? then
      Run(Failure(Rethrown(host.outputFile.error)), building)
    else
      var downloading := building + [DownloadDemo(demoAudio)];
      if host.downloadDemo.Some? then
        Run(Success(voiceId), downloading)
      else if host.writeDemo.Some? then
        Run(Success(voiceId), downloading + [WriteDemo(host.outputFile.value)])
      else
        Run(Success(DemoDescriptor(voiceId, host.outputFile.value)), downloading + [WriteDemo(host.outputFile.value)])
  }

  predicate IsPostTo(c: Call, endpoint: string) {
    c.Post? && c.endpoint == endpoint
  }

  /** Some call of the trace posts to `endpoint`. */
  predicate Posted(calls: seq<Call>, endpoint: string) {
    exists c :: c in calls && IsPostTo(c, endpoint)
  }

  /** Some call of the trace downloads the demo audio. */
  predicate Downloaded(calls: seq<Call>) {
    exists c :: c in calls && c.DownloadDemo?
  }

  /** The temporary file is written only for a URL, only after the fetch
      worked, and at the temporary path of that URL. */
  lemma StagingWritesTempAfterFetch(audioFile: string, isUrl: bool, host: Host)
    ensures forall c :: c in StagingCalls(audioFile, isUrl, host) && c.SaveTemp? ==>
              isUrl && host.fetchAudio.None? && c.path == TempFilePath(host.cwd, audioFile)
  {
  }

  /** Saving the demo audio posts nothing to the gateway. */
  lemma SavingIssuesNoPost(voiceId: string, demoAudio: string, outputDirectory: Option<string>, host: Host)
    ensures forall c :: c in SaveDemoRun(voiceId, demoAudio, outputDirectory, host).calls ==> !c.Post?
    ensures forall c :: c in SaveDemoRun(voiceId, demoAudio, outputDirectory, host).calls && c.DownloadDemo? ==>
              c == DownloadDemo(demoAudio) && host.outputFile.Success?
    ensures Downloaded(SaveDemoRun(voiceId, demoAudio, outputDirectory, host).calls) <==> host.outputFile.Success?
  {
    if host.outputFile.Success? {
      assert DownloadDemo(demoAudio) in SaveDemoRun(voiceId, demoAudio, outputDirectory, host).calls;
    }
  }

  /** Validation comes first: a missing or empty audio file, then a missing
      or empty voice id, fails before any call is issued. */
  lemma ValidationFirst(request: Request, api: Gateway, host: Host)
    ensures !Truthy(request.audioFile) ==>
              CloneVoiceRun(request, api, host) == Run(Failure(RequestError(Constants.ErrorAudioFileRequired)), [])
    ensures Truthy(request.audioFile) && !Truthy(request.voiceId) ==>
              CloneVoiceRun(request, api, host) == Run(Failure(RequestError(VoiceIdRequired)), [])
    ensures CloneVoiceRun(request, api, host).calls != [] ==> Validated(request)
  {
  }

  /** The upload is issued exactly when validation and staging succeeded,
      and it sends the staged file with purpose "voice_clone". */
  lemma UploadRequest(request: Request, api: Gateway, host: Host)
    ensures Posted(CloneVoiceRun(request, api, host).calls, UploadEndpoint) <==>
              Validated(request) && StagedFile(request.audioFile.value, request.isUrl, host).Success?
    ensures forall c :: c in CloneVoiceRun(request, api, host).calls && IsPostTo(c, UploadEndpoint) ==>
              && Validated(request)
              && c.body == UploadForm(StagedFile(request.audioFile.value, request.isUrl, host).value, UploadPurpose)
  {
    if Validated(request) {
      var audioFile := request.audioFile.value;
      var staged := StagedFile(audioFile, request.isUrl, host);
      if staged.Success? {
        var calls := CloneVoiceRun(request, api, host).calls;
        var k := |StagingCalls(audioFile, request.isUrl, host)|;
        assert calls[k] == Post(UploadEndpoint, UploadForm(staged.value, UploadPurpose)) && calls[k] in calls;
      }
      if staged.Success? && api.uploadReply.Success? && FileIdOf(api.uploadReply).Some?
         && api.cloneReply.Success? && Truthy(api.cloneReply.value) && api.resourceMode != Constants.ResourceModeUrl {
        SavingIssuesNoPost(request.voiceId.value, api.cloneReply.value.value, request.outputDirectory, host);
      }
    }
  }

  /** A failure to read the local file or to download the audio URL ends
      the clone with that step's own MinimaxRequestError, which the outer
      catch passes on unchanged, after the staging calls only. */
  lemma StagingFailureSurfaces(request: Request, api: Gateway, host: Host)
    requires Validated(request) && StagedFile(request.audioFile.value, request.isUrl, host).Failure?
    ensures CloneVoiceRun(request, api, host)
         == Run(Failure(StagedFile(request.audioFile.value, request.isUrl, host).error),
                StagingCalls(request.audioFile.value, request.isUrl, host))
    ensures !Posted(CloneVoiceRun(request, api, host).calls, UploadEndpoint)
  {
  }

  /** A missing `file_id` ends the clone with its own error and no clone
      call; a clone call is issued exactly when the upload gave a file id,
      and right after the upload. */
  lemma NoCloneWithoutFileId(request: Request, api: Gateway, host: Host)
    ensures Posted(CloneVoiceRun(request, api, host).calls, UploadEndpoint) && api.uploadReply.Success?
              && FileIdOf(api.uploadReply).None? ==>
              && CloneVoiceRun(request, api, host).result == Failure(RequestError(FileIdMissing))
              && !Posted(CloneVoiceRun(request, api, host).calls, CloneEndpoint)
    ensures Posted(CloneVoiceRun(request, api, host).calls, CloneEndpoint) <==>
              Posted(CloneVoiceRun(request, api, host).calls, UploadEndpoint) && FileIdOf(api.uploadReply).Some?
    ensures Posted(CloneVoiceRun(request, api, host).calls, CloneEndpoint) ==>
              exists k :: 0 <= k < |CloneVoiceRun(request, api, host).calls| - 1
                && IsPostTo(CloneVoiceRun(request, api, host).calls[k], UploadEndpoint)
                && IsPostTo(CloneVoiceRun(request, api, host).calls[k + 1], CloneEndpoint)
  {
    UploadRequest(request, api, host);
    var calls := CloneVoiceRun(request, api, host).calls;
    if !Validated(request) {
      assert calls == [];
    } else {
      var audioFile := request.audioFile.value;
      var staging := StagingCalls(audioFile, request.isUrl, host);
      var staged := StagedFile(audioFile, request.isUrl, host);
      if staged.Failure? {
        assert calls == staging;
      } else if api.uploadReply.Failure? || FileIdOf(api.uploadReply).None? {
        assert calls == staging + [Post(UploadEndpoint, UploadForm(staged.value, UploadPurpose))];
        assert forall c :: c in calls ==> !IsPostTo(c, CloneEndpoint);
      } else {
        var k := |staging|;
        assert IsPostTo(calls[k], UploadEndpoint) && IsPostTo(calls[k + 1], CloneEndpoint);
        assert calls[k + 1] in calls;
        if api.cloneReply.Success? && Truthy(api.cloneReply.value) && api.resourceMode != Constants.ResourceModeUrl {
          SavingIssuesNoPost(request.voiceId.value, api.cloneReply.value.value, request.outputDirectory, host);
        }
      }
    }
  }

  /** Every clone call carries the file id and the voice id, and the demo
      text with the default speech model exactly when a text was given. */
  lemma ClonePayloadShape(request: Request, api: Gateway, host: Host)
    ensures forall c :: c in CloneVoiceRun(request, api, host).calls && IsPostTo(c, CloneEndpoint) ==>
              && request.voiceId.Some?
              && FileIdOf(api.uploadReply).Some?
              && c.body.ClonePayload?
              && PayloadFor(c.body.fields, FileIdOf(api.uploadReply).value, request.voiceId.value, request.text)
  {
    if Validated(request) {
      var audioFile := request.audioFile.value;
      var staged := StagedFile(audioFile, request.isUrl, host);
      if staged.Success? && api.uploadReply.Success? && FileIdOf(api.uploadReply).Some?
         && api.cloneReply.Success? && Truthy(api.cloneReply.value) && api.resourceMode != Constants.ResourceModeUrl {
        SavingIssuesNoPost(request.voiceId.value, api.cloneReply.value.value, request.outputDirectory, host);
      }
    }
  }

  /** A download is attempted only for demo audio outside URL mode, once an
      output path was chosen, and only of the demo audio URL. */
  lemma DownloadOnlyOutsideUrlMode(request: Request, api: Gateway, host: Host)
    ensures Downloaded(CloneVoiceRun(request, api, host).calls) <==>
              && Posted(CloneVoiceRun(request, api, host).calls, CloneEndpoint)
              && api.cloneReply.Success? && Truthy(api.cloneReply.value)
              && api.resourceMode != Constants.ResourceModeUrl && host.outputFile.Success?
    ensures forall c :: c in CloneVoiceRun(request, api, host).calls && c.DownloadDemo? ==>
              api.cloneReply.Success? && api.cloneReply.value == Some(c.url)
  {
    NoCloneWithoutFileId(request, api, host);
    UploadRequest(request, api, host);
    if Validated(request) {
      var audioFile := request.audioFile.value;
      var staged := StagedFile(audioFile, request.isUrl, host);
      if staged.Success? && api.uploadReply.Success? && FileIdOf(api.uploadReply).Some?
         && api.cloneReply.Success? && Truthy(api.cloneReply.value) && api.resourceMode != Constants.ResourceModeUrl {
        SavingIssuesNoPost(request.voiceId.value, api.cloneReply.value.value, request.outputDirectory, host);
      }
    }
  }

  /** A clone reply without demo audio gives exactly the voice id, and no
      download is attempted. */
  lemma NoDemoReturnsVoiceId(request: Request, api: Gateway, host: Host)
    requires Posted(CloneVoiceRun(request, api, host).calls, CloneEndpoint)
    requires api.cloneReply.Success? && !Truthy(api.cloneReply.value)
    ensures request.voiceId.Some? && CloneVoiceRun(request, api, host).result == Success(request.voiceId.value)
    ensures !Downloaded(CloneVoiceRun(request, api, host).calls)
  {
    NoCloneWithoutFileId(request, api, host);
    UploadRequest(request, api, host);
    DownloadOnlyOutsideUrlMode(request, api, host);
  }

  /** In URL mode the demo audio URL is the result, unchanged, and no
      download is attempted. */
  lemma UrlModeReturnsDemoUrl(request: Request, api: Gateway, host: Host)
    requires Posted(CloneVoiceRun(request, api, host).calls, CloneEndpoint)
    requires api.cloneReply.Success? && Truthy(api.cloneReply.value)
    requires api.resourceMode == Constants.ResourceModeUrl
    ensures CloneVoiceRun(request, api, host).result == Success(api.cloneReply.value.value)
    ensures !Downloaded(CloneVoiceRun(request, api, host).calls)
  {
    NoCloneWithoutFileId(request, api, host);
    UploadRequest(request, api, host);
    DownloadOnlyOutsideUrlMode(request, api, host);
  }

  /** Once the demo download was attempted the clone has succeeded: a failed
      download or write gives the bare voice id, a saved file the voice id
      with the demo path. */
  lemma FailedDemoKeepsVoiceId(request: Request, api: Gateway, host: Host)
    requires Downloaded(CloneVoiceRun(request, api, host).calls)
    ensures request.voiceId.Some? && host.outputFile.Success?
    ensures host.downloadDemo.Some? || host.writeDemo.Some? ==>
              CloneVoiceRun(request, api, host).result == Success(request.voiceId.value)
    ensures host.downloadDemo.None? && host.writeDemo.None? ==>
              CloneVoiceRun(request, api, host).result == Success(DemoDescriptor(request.voiceId.value, host.outputFile.value))
  {
    DownloadOnlyOutsideUrlMode(request, api, host);
    NoCloneWithoutFileId(request, api, host);
    UploadRequest(request, api, host);
  }

  /** Everything `cloneVoice` throws is a MinimaxRequestError: errors of its
      own pass through unchanged, any other is wrapped exactly once. */
  lemma ErrorsAreRequestErrors(request: Request, api: Gateway, host: Host)
    ensures CloneVoiceRun(request, api, host).result.Failure? ==> CloneVoiceRun(request, api, host).result.error.RequestError?
    ensures Posted(CloneVoiceRun(request, api, host).calls, UploadEndpoint) && api.uploadReply.Failure? ==>
              CloneVoiceRun(request, api, host).result == Failure(Rethrown(api.uploadReply.error))
    ensures Posted(CloneVoiceRun(request, api, host).calls, CloneEndpoint) && api.cloneReply.Failure? ==>
              CloneVoiceRun(request, api, host).result == Failure(Rethrown(api.cloneReply.error))
  {
    UploadRequest(request, api, host);
    NoCloneWithoutFileId(request, api, host);
  }

  class VoiceCloneApi {
    const api: Gateway

    constructor(api: Gateway)
      ensures this.api == api
    {
      this.api := api;
    }

    /** Step 1: fetch and save the audio URL to a temporary file, or resolve
        the local file; either failure becomes a MinimaxRequestError. */
    method StageFile(audioFile: string, isUrl: bool, host: Host) returns (staged: Result<string, Fault>, calls: seq<Call>)
      ensures staged == StagedFile(audioFile, isUrl, host)
      ensures calls == StagingCalls(audioFile, isUrl, host)
    {
      calls := [];
      if isUrl {
        calls := calls + [FetchAudio(audioFile)];
        if host.fetchAudio.Some? {
          return Failure(RequestError(UrlReadFailed + Stringify(host.fetchAudio.value))), calls;
        }
        var tempFilePath := TempFilePath(host.cwd, audioFile);
        calls := calls + [SaveTemp(tempFilePath)];
        if host.saveTemp.Some? {
          return Failure(RequestError(UrlReadFailed + Stringify(host.saveTemp.value))), calls;
        }
        staged := Success(tempFilePath);
      } else {
        calls := calls + [ResolveLocal(audioFile)];
        if host.resolveLocal.Failure? {
          return Failure(RequestError(LocalReadFailed + Stringify(host.resolveLocal.error))), calls;
        }
        staged := Success(host.resolveLocal.value);
      }
    }

    /** Step 4: download the demo audio and write it to the output path. */
    method SaveDemo(voiceId: string, demoAudio: string, outputDirectory: Option<string>, host: Host)
      returns (result: Result<string, Fault>, calls: seq<Call>)
      ensures Run(result, calls) == SaveDemoRun(voiceId, demoAudio, outputDirectory, host)
    {
      calls := [BuildOutputFile(DemoCategory, outputDirectory, DemoExtension, DemoUniqueName)];
      if host.outputFile.Failure? {
        return Failure(Rethrown(host.outputFile.error)), calls;
      }
      var outputPath := host.outputFile.value;
      calls := calls + [DownloadDemo(demoAudio)];
      if host.downloadDemo.Some? {
        // the clone itself succeeded: report the voice id
        return Success(voiceId), calls;
      }
      calls := calls + [WriteDemo(outputPath)];
      if host.writeDemo.Some? {
        return Success(voiceId), calls;
      }
      return Success(DemoDescriptor(voiceId, outputPath)), calls;
    }

    /** `cloneVoice(request)`, effect by effect. */
    method CloneVoice(request: Request, host: Host) returns (result: Result<string, Fault>, calls: seq<Call>)
      ensures Run(result, calls) == CloneVoiceRun(request, api, host)
    {
      if !Truthy(request.audioFile) {
        return Failure(RequestError(Constants.ErrorAudioFileRequired)), [];
      }
      if !Truthy(request.voiceId) {
        return Failure(RequestError(VoiceIdRequired)), [];
      }
      var audioFile := request.audioFile.value;
      var voiceId := request.voiceId.value;
      calls := [];

      // Step 1: the file to upload
      var staged, staging := StageFile(audioFile, request.isUrl, host);
      calls := staging;
      if staged.Failure? {
        return Failure(staged.error), calls;
      }
      var filePath := staged.value;

      // Step 2: upload it
      calls := calls + [Post(UploadEndpoint, UploadForm(filePath, UploadPurpose))];
      if api.uploadReply.Failure? {
        return Failure(Rethrown(api.uploadReply.error)), calls;
      }
      var fileId := FileIdOf(api.uploadReply);
      if fileId.None? {
        return Failure(RequestError(FileIdMissing)), calls;
      }

      // Step 3: clone the voice
      var payload := map["file_id" := fileId.value, "voice_id" := voiceId];
      if Truthy(request.text) {
        payload := payload["text" := request.text.value];
        payload := payload["model" := Constants.DefaultSpeechModel];
      }
      assert payload == ClonePayloadFor(fileId.value, voiceId, request.text);
      calls := calls + [Post(CloneEndpoint, ClonePayload(payload))];
      if api.cloneReply.Failure? {
        return Failure(Rethrown(api.cloneReply.error)), calls;
      }
      var demoAudio := api.cloneReply.value;
      if !Truthy(demoAudio) {
        return Success(voiceId), calls;
      }
      if api.resourceMode == Constants.ResourceModeUrl {
        return Success(demoAudio.value), calls;
      }

      // Step 4: save the demo audio
      var saved, saving := SaveDemo(voiceId, demoAudio.value, request.outputDirectory, host);
      return saved, calls + saving;
    }
  }
}
