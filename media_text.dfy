/** The pure parts of the media service (src/services/media-service.ts):
    error wrapping, the automatic output-file name, and the text that
    describes a video result. */
module MediaText {
  import opened Wrappers
  import opened Js
  import opened Errors
  import Constants

  // ---------------------------------------------------------------- errors

  /** `wrapError(message, error)`: a new plain Error whose message is the
      operation's message, ": ", and the cause -- the cause's own message
      when it is an Error, its `String()` form otherwise. */
  function WrapError(message: string, error: Fault): (r: Fault)
    ensures r.PlainError? && r.name == "Error"
    ensures StartsWith(r.message, message + ": ")
    ensures IsError(error) ==> r.message[|message| + 2..] == error.message
    ensures !IsError(error) ==> r.message[|message| + 2..] == Stringify(error)
  {
    PlainError("Error", message + ": " + (if IsError(error) then error.message else Stringify(error)))
  }

  // ------------------------------------------------------ output file name

  /** How many characters of the prompt go into a generated file name. */
  const PrefixLength := 20

  /** `s.replace(/[^\w]/g, '_')` */
  function ReplaceNonWord(s: string): (r: string)
    ensures |r| == |s|
    ensures forall i :: 0 <= i < |s| ==> r[i] == (if IsWordChar(s[i]) then s[i] else '_')
  {
    if s == [] then []
    else ReplaceNonWord(s[..|s| - 1]) + [if IsWordChar(s[|s| - 1]) then s[|s| - 1] else '_']
  }

  /** `prompt.substring(0, 20).replace(/[^\w]/g, '_')`: at most twenty
      characters, each the prompt's own character at that index when it is a
      word character and `_` otherwise. */
  function PromptPrefix(prompt: string): (r: string)
    ensures |r| == if |prompt| < PrefixLength then |prompt| else PrefixLength
    ensures forall i :: 0 <= i < |r| ==> IsWordChar(r[i])
    ensures forall i :: 0 <= i < |r| ==> r[i] == (if IsWordChar(prompt[i]) then prompt[i] else '_')
  {
    ReplaceNonWord(if |prompt| < PrefixLength then prompt else prompt[..PrefixLength])
  }

  /** A prefix is its own prefix: applying the rule twice changes nothing. */
  lemma PromptPrefixIdempotent(prompt: string)
    ensures PromptPrefix(PromptPrefix(prompt)) == PromptPrefix(prompt)
  {
    var p := PromptPrefix(prompt);
    var q := PromptPrefix(p);
    assert |q| == |p|;
    forall i | 0 <= i < |q| ensures q[i] == p[i] {
      assert IsWordChar(p[i]);
    }
  }

  /** `${kind}_${promptPrefix}_${Date.now()}`, with the clock reading `now`
      given as a parameter. */
  function OutputFileName(kind: string, prompt: string, now: nat): (r: string)
    ensures StartsWith(r, kind + "_")
    ensures EndsWith(r, "_" + NumberText(now))
    ensures |r| == |kind| + |PromptPrefix(prompt)| + |NumberText(now)| + 2
    ensures r[|kind| + 1..|kind| + 1 + |PromptPrefix(prompt)|] == PromptPrefix(prompt)
  {
    kind + "_" + PromptPrefix(prompt) + "_" + NumberText(now)
  }

  /** A generated name gives back the clock reading after its last `_`. */
  lemma OutputFileNameTimestamp(kind: string, prompt: string, now: nat)
    ensures AfterLast(OutputFileName(kind, prompt, now), '_') == NumberText(now)
    ensures DigitsValue(AfterLast(OutputFileName(kind, prompt, now), '_')) == now
  {
    var digits := NumberText(now);
    assert '_' !in digits by {
      forall k | 0 <= k < |digits| ensures digits[k] != '_' {
        assert IsDigit(digits[k]);
      }
    }
    assert OutputFileName(kind, prompt, now) == (kind + "_" + PromptPrefix(prompt)) + ['_'] + digits;
    AfterLastOfJoin(kind + "_" + PromptPrefix(prompt), '_', digits);
    DigitsValueOfNumberText(now);
  }

  /** A generated name starts with its kind and `_`, and is made of word
      characters only when the kind is. */
  lemma OutputFileNameWordChars(kind: string, prompt: string, now: nat)
    requires forall i :: 0 <= i < |kind| ==> IsWordChar(kind[i])
    ensures StartsWith(OutputFileName(kind, prompt, now), kind + "_")
    ensures forall i :: 0 <= i < |OutputFileName(kind, prompt, now)| ==> IsWordChar(OutputFileName(kind, prompt, now)[i])
  {
    var p := PromptPrefix(prompt);
    var digits := NumberText(now);
    var name := OutputFileName(kind, prompt, now);
    assert name == kind + "_" + p + "_" + digits;
    forall i | 0 <= i < |name| ensures IsWordChar(name[i]) {
      if i < |kind| {
        assert name[i] == kind[i];
      } else if i == |kind| || i == |kind| + 1 + |p| {
        assert name[i] == '_';
      } else if i < |kind| + 1 + |p| {
        assert name[i] == p[i - |kind| - 1];
      } else {
        assert name[i] == digits[i - |kind| - 2 - |p|];
        assert IsDigit(digits[i - |kind| - 2 - |p|]);
      }
    }
    assert name[..|kind| + 1] == kind + "_";
  }

  // ------------------------------------------------------ video descriptors

  /** The fields of a video-generation reply the service reads; each may be missing. */
  datatype VideoResult = VideoResult(taskId: Option<string>, videoUrl: Option<string>, videoPath: Option<string>)

  /** The fields of a video-query reply the service reads. */
  datatype QueryResult = QueryResult(status: Option<string>, videoUrl: Option<string>, videoPath: Option<string>)

  /** What the text returned to the caller reports. */
  datatype Descriptor =
    | TaskSubmitted(taskId: string)
    | VideoUrl(url: string)
    | VideoSaved(path: string)
    | StillProcessing(taskId: string)

  const SuccessStatus := "Success"

  // The verifier reads a string literal character by character only when it
  // is short, so the long texts are written as concatenations.
  const SubmittedPrefix := "Success. Video generation task " + "submitted: Task ID: "
  const SubmittedSuffix := ". Please use `query_video_generation` " + "tool to check the status of the task " + "and get the result."
  const UrlPrefix := "Success. Video URL: "
  const SavedPrefix := "Success. Video saved as: "
  const ProcessingPrefix := "Video generation task " + "is still processing: Task ID: "
  const ProcessingSuffix := "."

  /** The text the service puts in its reply for a descriptor. */
  function Render(d: Descriptor): (r: string)
    ensures d.TaskSubmitted? ==> StartsWith(r, SubmittedPrefix) && EndsWith(r, SubmittedSuffix)
                                 && |r| == |SubmittedPrefix| + |d.taskId| + |SubmittedSuffix|
                                 && r[|SubmittedPrefix|..|r| - |SubmittedSuffix|] == d.taskId
    ensures d.VideoUrl? ==> StartsWith(r, UrlPrefix) && r[|UrlPrefix|..] == d.url
    ensures d.VideoSaved? ==> StartsWith(r, SavedPrefix) && r[|SavedPrefix|..] == d.path
    ensures d.StillProcessing? ==> StartsWith(r, ProcessingPrefix) && EndsWith(r, ProcessingSuffix)
                                   && |r| == |ProcessingPrefix| + |d.taskId| + |ProcessingSuffix|
                                   && r[|ProcessingPrefix|..|r| - |ProcessingSuffix|] == d.taskId
  {
    match d
    case TaskSubmitted(id) => SubmittedPrefix + id + SubmittedSuffix
    case VideoUrl(url) => UrlPrefix + url
    case VideoSaved(path) => SavedPrefix + path
    case StillProcessing(id) => ProcessingPrefix + id + ProcessingSuffix
  }

  /** Reads a reply text back: which kind of result it reports, and the
      identifier, URL or path it embeds. */
  function Parse(text: string): Option<Descriptor> {
    if StartsWith(text, SubmittedPrefix) && |text| >= |SubmittedPrefix| + |SubmittedSuffix| && EndsWith(text, SubmittedSuffix) then
      Some(TaskSubmitted(text[|SubmittedPrefix|..|text| - |SubmittedSuffix|]))
    else if StartsWith(text, UrlPrefix) then
      Some(VideoUrl(text[|UrlPrefix|..]))
    else if StartsWith(text, SavedPrefix) then
      Some(VideoSaved(text[|SavedPrefix|..]))
    else if StartsWith(text, ProcessingPrefix) && |text| >= |ProcessingPrefix| + |ProcessingSuffix| && EndsWith(text, ProcessingSuffix) then
      Some(StillProcessing(text[|ProcessingPrefix|..|text| - |ProcessingSuffix|]))
    else
      None
  }

  /** Every reply text is unambiguous: it tells which branch produced it and
      gives back exactly what it embeds. */
  lemma ParseRender(d: Descriptor)
    ensures Parse(Render(d)) == Some(d)
  {
    match d
    case TaskSubmitted(id) => ParseSubmitted(id);
    case VideoUrl(url) => ParseUrl(url);
    case VideoSaved(path) => ParseSaved(path);
    case StillProcessing(id) => ParseProcessing(id);
  }

  lemma ParseSubmitted(id: string)
    ensures Parse(Render(TaskSubmitted(id))) == Some(TaskSubmitted(id))
  {
    var t := Render(TaskSubmitted(id));
    assert t[..|SubmittedPrefix|] == SubmittedPrefix;
    assert t[|t| - |SubmittedSuffix|..] == SubmittedSuffix;
    assert t[|SubmittedPrefix|..|t| - |SubmittedSuffix|] == id;
  }

  lemma ParseUrl(url: string)
    ensures Parse(Render(VideoUrl(url))) == Some(VideoUrl(url))
  {
    var t := Render(VideoUrl(url));
    assert t[15] == 'U' && SubmittedPrefix[15] == 'g';
    assert t[..|UrlPrefix|] == UrlPrefix;
  }

  lemma ParseSaved(path: string)
    ensures Parse(Render(VideoSaved(path))) == Some(VideoSaved(path))
  {
    var t := Render(VideoSaved(path));
    assert t[15] == 's' && SubmittedPrefix[15] == 'g' && UrlPrefix[15] == 'U';
    assert t[..|SavedPrefix|] == SavedPrefix;
  }

  lemma ParseProcessing(id: string)
    ensures Parse(Render(StillProcessing(id))) == Some(StillProcessing(id))
  {
    var t := Render(StillProcessing(id));
    assert t[0] == 'V' && SubmittedPrefix[0] == 'S' && UrlPrefix[0] == 'S' && SavedPrefix[0] == 'S';
    assert t[..|ProcessingPrefix|] == ProcessingPrefix;
    assert t[|t| - |ProcessingSuffix|..] == ProcessingSuffix;
    assert t[|ProcessingPrefix|..|t| - |ProcessingSuffix|] == id;
  }

  /** Two different results never produce the same text. */
  lemma RenderInjective(d1: Descriptor, d2: Descriptor)
    requires Render(d1) == Render(d2)
    ensures d1 == d2
  {
    ParseRender(d1);
    ParseRender(d2);
  }

  /** The branch in `generateVideo`: asynchronous mode wins over the resource
      mode and reports the task id; otherwise URL mode reports the video URL
      and every other mode, including an unset one, the saved path. */
  function GenerateVideoDescriptor(asyncMode: bool, resourceMode: Option<string>, result: VideoResult): (d: Descriptor)
    ensures d.TaskSubmitted? <==> asyncMode
    ensures d.VideoUrl? <==> !asyncMode && resourceMode == Some(Constants.ResourceModeUrl)
    ensures d.VideoSaved? <==> !asyncMode && resourceMode != Some(Constants.ResourceModeUrl)
    ensures !d.StillProcessing?
    ensures d.TaskSubmitted? ==> d.taskId == Interpolate(result.taskId)
    ensures d.VideoUrl? ==> d.url == Interpolate(result.videoUrl)
    ensures d.VideoSaved? ==> d.path == Interpolate(result.videoPath)
  {
    if asyncMode then TaskSubmitted(Interpolate(result.taskId))
    else if resourceMode == Some(Constants.ResourceModeUrl) then VideoUrl(Interpolate(result.videoUrl))
    else VideoSaved(Interpolate(result.videoPath))
  }

  /** The branch in `queryVideoGeneration`: only the status "Success" reports
      a result (URL or path by resource mode); any other status, "Failed"
      included, reports "still processing" with the task id the caller asked
      about, never a field of the reply. */
  function QueryDescriptor(result: QueryResult, resourceMode: Option<string>, taskId: Option<string>): (d: Descriptor)
    ensures d.StillProcessing? <==> result.status != Some(SuccessStatus)
    ensures d.StillProcessing? ==> d.taskId == Interpolate(taskId)
    ensures d.VideoUrl? <==> result.status == Some(SuccessStatus) && resourceMode == Some(Constants.ResourceModeUrl)
    ensures d.VideoSaved? <==> result.status == Some(SuccessStatus) && resourceMode != Some(Constants.ResourceModeUrl)
    ensures !d.TaskSubmitted?
    ensures d.VideoUrl? ==> d.url == Interpolate(result.videoUrl)
    ensures d.VideoSaved? ==> d.path == Interpolate(result.videoPath)
  {
    if result.status == Some(SuccessStatus) then
      if resourceMode == Some(Constants.ResourceModeUrl) then VideoUrl(Interpolate(result.videoUrl))
      else VideoSaved(Interpolate(result.videoPath))
    else
      StillProcessing(Interpolate(taskId))
  }
}
