/** The tags, defaults, error messages and model lists the core reads
    (src/const/index.ts). */
module Constants {

  // Resource modes: how a produced artifact is handed back
  const ResourceModeUrl := "url"
  const ResourceModeLocal := "local"
  const ResourceModeBase64 := "base64"

  // Transport modes of the server
  const TransportModeStdio := "stdio"
  const TransportModeRest := "rest"
  const TransportModeSse := "sse"

  // Default values
  const DefaultApiHost := "https://api.minimax.chat"
  const DefaultSpeechModel := "speech-02-hd"
  const DefaultT2IModel := "image-01"
  const DefaultT2VModel := "T2V-01"
  const DefaultVoiceId := "male-qn-qingse"
  const DefaultEmotion := "happy"
  const DefaultFormat := "mp3"
  const DefaultPitch: int := 0
  const DefaultBitrate: int := 128000
  const DefaultChannel: int := 1
  const DefaultSampleRate: int := 32000
  const DefaultLanguageBoost := "auto"
  const DefaultTransportMode := TransportModeStdio
  const DefaultServerPort: int := 9593
  const DefaultServerEndpoint := "/rest"
  const DefaultMusicModel := "music-1.5"
  const DefaultVideoModel := "MiniMax-Hailuo-02"

  // Error messages
  const ErrorApiKeyRequired := "API_KEY environment variable is required"
  const ErrorApiHostRequired := "API_HOST is required"
  const ErrorTextRequired := "Text is required for text-to-speech conversion."
  const ErrorPromptRequired := "Prompt is required for generation."
  const ErrorAudioFileRequired := "Audio file is required for voice cloning."
  const ErrorLyricsRequired := "Lyrics are required for music generation."
  const ErrorPreviewTextRequired := "Preview text is required for voice design."

  // Model lists
  const ValidVideoModels: seq<string> :=
    ["T2V-01", "T2V-01-Director", "I2V-01", "I2V-01-Director", "I2V-01-live", "S2V-01", "MiniMax-Hailuo-02"]
  const ValidImageModels: seq<string> := ["image-01"]

  const ResourceModes: seq<string> := [ResourceModeUrl, ResourceModeLocal, ResourceModeBase64]
  const TransportModes: seq<string> := [TransportModeStdio, TransportModeRest, TransportModeSse]

  /** No string occurs twice in `s`. */
  predicate Distinct(s: seq<string>) {
    forall i, j :: 0 <= i < j < |s| ==> s[i] != s[j]
  }

  /** The three resource-mode tags differ, so comparing with the URL tag
      singles out URL mode. */
  lemma ResourceModesDistinct()
    ensures Distinct(ResourceModes)
    ensures ResourceModeLocal != ResourceModeUrl && ResourceModeBase64 != ResourceModeUrl
  {
  }

  lemma TransportModesDistinct()
    ensures Distinct(TransportModes)
    ensures DefaultTransportMode in TransportModes
  {
  }

  lemma DefaultVideoModelsValid()
    ensures DefaultVideoModel in ValidVideoModels
    ensures DefaultT2VModel in ValidVideoModels
  {
  }

  lemma DefaultImageModelValid()
    ensures DefaultT2IModel in ValidImageModels
  {
  }

  lemma ValidVideoModelsDistinct()
    ensures Distinct(ValidVideoModels)
  {
  }
}
