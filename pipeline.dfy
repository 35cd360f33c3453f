/** The main process's recording controller as functions on a snapshot of its
    module-level state. Each function is one handler of src/main/main.js; the class in
    module MainProcess is proved to change its fields exactly as these functions say. */
module Pipeline {
  import opened Values

  /** The module-level state of the main process, plus what it has done to the world:
      the temp-file system, the clipboard, and logs of what it sent to its two windows,
      to the microphone and to the transcription service. */
  datatype State = State(
    recording: bool,                  // isRecording
    audioBuffer: seq<Chunk>,          // audioBuffer
    client: Option<string>,           // groq: the API key it was built with, or absent
    overlayVisible: bool,             // isOverlayVisible
    micCalls: seq<MicCall>,           // calls on micInstance, in order
    files: map<string, seq<byte>>,    // the file system as far as the model writes it
    clipboard: string,
    overlay: seq<OverlayEvent>,       // messages to and actions on the overlay window
    mainLog: seq<MainEvent>,          // messages to the main window
    requests: seq<Request>,           // transcription requests made
    store: map<string, string>,       // the settings store
    tempDir: string                   // app.getPath("temp")
  )

  /** The state right after the app starts, before any client is set up. */
  function Initial(tempDir: string, store: map<string, string>, files: map<string, seq<byte>>, clipboard: string): (s: State)
    ensures !s.recording && s.audioBuffer == [] && s.client.None? && !s.overlayVisible
    ensures s.micCalls == [] && s.overlay == [] && s.mainLog == [] && s.requests == []
    ensures s.files == files && s.clipboard == clipboard && s.store == store && s.tempDir == tempDir
  {
    State(false, [], None, false, [], files, clipboard, [], [], [], store, tempDir)
  }

  /** Whether a microphone instance has been created (`if (micInstance)`). */
  predicate HasMic(s: State)
  {
    s.micCalls != []
  }

  /** The last call on the microphone was a start. */
  predicate MicListening(s: State)
  {
    s.micCalls != [] && s.micCalls[|s.micCalls| - 1] == MicStart
  }

  /** No two starts of the microphone without a stop between them. */
  ghost predicate NoDoubleStart(calls: seq<MicCall>)
  {
    forall i, j :: 0 <= i && j == i + 1 && j < |calls| ==> !(calls[i] == MicStart && calls[j] == MicStart)
  }

  /** The invariant the handlers keep: the recording flag is set exactly while the
      microphone is listening, and captures never overlap. */
  ghost predicate Valid(s: State)
  {
    (s.recording <==> MicListening(s)) && NoDoubleStart(s.micCalls)
  }

  /** The parts of the state that a handler not about them leaves alone. */
  predicate SameWorld(s: State, r: State)
  {
    r.files == s.files && r.clipboard == s.clipboard && r.client == s.client &&
    r.requests == s.requests && r.store == s.store && r.tempDir == s.tempDir
  }

  /** `startRecording`: sets the flag, empties the buffer, starts a fresh microphone,
      announces "recording" and shows the overlay. There is no guard against a
      recording already under way. */
  function StartRecording(s: State): (r: State)
    ensures r.recording && r.audioBuffer == [] && r.overlayVisible
    ensures r.micCalls == s.micCalls + [MicStart] && MicListening(r)
    ensures r.overlay == s.overlay + [UpdateStatus(Recording), Show]
    ensures r.mainLog == s.mainLog + [RecordingStatus(true)]
    ensures SameWorld(s, r)
  {
    s.(recording := true, audioBuffer := [], micCalls := s.micCalls + [MicStart],
       overlay := s.overlay + [UpdateStatus(Recording), Show],
       mainLog := s.mainLog + [RecordingStatus(true)], overlayVisible := true)
  }

  /** The microphone stream's `data` handler: the chunk goes to the end of the buffer. */
  function OnMicData(s: State, chunk: Chunk): (r: State)
    ensures |r.audioBuffer| == |s.audioBuffer| + 1
    ensures r.audioBuffer[..|s.audioBuffer|] == s.audioBuffer
    ensures r.audioBuffer[|s.audioBuffer|] == chunk
    ensures r == s.(audioBuffer := r.audioBuffer)
  {
    s.(audioBuffer := s.audioBuffer + [chunk])
  }

  /** `performTranscription`: with no client it throws before touching any file;
      otherwise it writes the joined buffer to the fixed temp file, sends that file to
      the service, and removes the file only when the service answered. */
  function PerformTranscription(s: State, outcome: ApiOutcome): (r: (State, Result<string>))
    ensures s.client.None? ==> r.0 == s && r.1 == Err(ClientMissingMessage)
    ensures s.client.Some? ==>
      r.0.requests == s.requests + [Request(AudioFilePath(s.tempDir), Concat(s.audioBuffer), TranscriptionModel, TranscriptionLanguage, ResponseFormat)]
    ensures s.client.Some? && outcome.Transcribed? ==>
      r.1 == Ok(outcome.text) && r.0.files == s.files - {AudioFilePath(s.tempDir)}
    ensures s.client.Some? && outcome.ApiError? ==>
      r.1 == Err(outcome.message) && r.0.files == s.files[AudioFilePath(s.tempDir) := Concat(s.audioBuffer)]
    ensures r.0 == s.(files := r.0.files, requests := r.0.requests)
  {
    if s.client.None? then (s, Err(ClientMissingMessage))
    else
      var path := AudioFilePath(s.tempDir);
      var written := s.(files := s.files[path := Concat(s.audioBuffer)]);
      var sent := written.(requests := written.requests + [Request(path, written.files[path], TranscriptionModel, TranscriptionLanguage, ResponseFormat)]);
      match outcome
      case Transcribed(text) => (sent.(files := sent.files - {path}), Ok(text))
      case ApiError(message) => (sent, Err(message))
  }

  /** A transcription that reaches the clipboard: a client exists and the service
      answered with a non-empty text. */
  predicate Delivers(s: State, outcome: ApiOutcome)
  {
    s.client.Some? && outcome.Transcribed? && outcome.text != ""
  }

  /** A transcription that throws: no client, or the service failed. */
  predicate Throws(s: State, outcome: ApiOutcome)
  {
    s.client.None? || outcome.ApiError?
  }

  /** `stopRecording`: clears the flag, stops the microphone if one exists, announces
      "processing", then transcribes. A non-empty text goes to the clipboard and is
      announced "done" with a 700 ms hide; an empty text changes nothing more; an error
      is announced "error" with a 2000 ms hide and leaves the clipboard alone. The
      buffer is not cleared and the overlay flag is not reset. */
  function StopRecording(s: State, outcome: ApiOutcome): (r: State)
    ensures !r.recording && !MicListening(r)
    ensures r.micCalls == if HasMic(s) then s.micCalls + [MicStop] else s.micCalls
    ensures r.audioBuffer == s.audioBuffer && r.overlayVisible == s.overlayVisible
    ensures r.client == s.client && r.store == s.store && r.tempDir == s.tempDir
    ensures |r.overlay| > |s.overlay| && r.overlay[..|s.overlay| + 1] == s.overlay + [UpdateStatus(Processing)]
    ensures |r.mainLog| > |s.mainLog| && r.mainLog[..|s.mainLog| + 1] == s.mainLog + [RecordingStatus(false)]
    ensures Delivers(s, outcome) ==>
      r.clipboard == outcome.text &&
      r.overlay == s.overlay + [UpdateStatus(Processing), UpdateStatus(Done), HideAfter(SuccessHideMs)] &&
      r.mainLog == s.mainLog + [RecordingStatus(false), TranscriptionResult(outcome.text)]
    ensures Throws(s, outcome) ==>
      r.clipboard == s.clipboard &&
      r.overlay == s.overlay + [UpdateStatus(Processing), UpdateStatus(Error), HideAfter(ErrorHideMs)] &&
      r.mainLog == s.mainLog + [RecordingStatus(false), ErrorNotice(TranscriptionErrorNotice)]
    ensures !Delivers(s, outcome) && !Throws(s, outcome) ==>
      r.clipboard == s.clipboard &&
      r.overlay == s.overlay + [UpdateStatus(Processing)] &&
      r.mainLog == s.mainLog + [RecordingStatus(false)]
    ensures s.client.None? ==> r.files == s.files && r.requests == s.requests
    ensures s.client.Some? ==>
      r.requests == s.requests + [Request(AudioFilePath(s.tempDir), Concat(s.audioBuffer), TranscriptionModel, TranscriptionLanguage, ResponseFormat)]
    ensures s.client.Some? && outcome.Transcribed? ==> r.files == s.files - {AudioFilePath(s.tempDir)}
    ensures s.client.Some? && outcome.ApiError? ==> r.files == s.files[AudioFilePath(s.tempDir) := Concat(s.audioBuffer)]
  {
    var (after, result) := PerformTranscription(Stopped(s), outcome);
    Announce(after, result)
  }

  /** The first half of `stopRecording`: the flag cleared, the microphone stopped if
      there is one, "processing" announced. */
  function Stopped(s: State): (r: State)
    ensures !r.recording && !MicListening(r)
    ensures r.micCalls == if HasMic(s) then s.micCalls + [MicStop] else s.micCalls
    ensures r.overlay == s.overlay + [UpdateStatus(Processing)]
    ensures r.mainLog == s.mainLog + [RecordingStatus(false)]
    ensures r == s.(recording := false, micCalls := r.micCalls, mainLog := r.mainLog, overlay := r.overlay)
  {
    s.(recording := false,
       micCalls := if HasMic(s) then s.micCalls + [MicStop] else s.micCalls,
       mainLog := s.mainLog + [RecordingStatus(false)],
       overlay := s.overlay + [UpdateStatus(Processing)])
  }

  /** The second half of `stopRecording`: what follows the transcription's result. */
  function Announce(after: State, result: Result<string>): (r: State)
    ensures result.Ok? && result.value != "" ==>
      r == after.(clipboard := result.value,
                  mainLog := after.mainLog + [TranscriptionResult(result.value)],
                  overlay := after.overlay + [UpdateStatus(Done), HideAfter(SuccessHideMs)])
    ensures result.Ok? && result.value == "" ==> r == after
    ensures result.Err? ==>
      r == after.(mainLog := after.mainLog + [ErrorNotice(TranscriptionErrorNotice)],
                  overlay := after.overlay + [UpdateStatus(Error), HideAfter(ErrorHideMs)])
  {
    match result
    case Ok(text) =>
      if text != "" then
        after.(clipboard := text,
               mainLog := after.mainLog + [TranscriptionResult(text)],
               overlay := after.overlay + [UpdateStatus(Done), HideAfter(SuccessHideMs)])
      else after
    case Err(_) =>
      after.(mainLog := after.mainLog + [ErrorNotice(TranscriptionErrorNotice)],
             overlay := after.overlay + [UpdateStatus(Error), HideAfter(ErrorHideMs)])
  }

  /** The microphone's `error` handler: tells the main window, then takes the same
      path as a stop. */
  function OnMicError(s: State, outcome: ApiOutcome): (r: State)
    ensures |r.mainLog| > |s.mainLog| && r.mainLog[|s.mainLog|] == ErrorNotice(RecordingErrorNotice)
    ensures !r.recording
    ensures |r.overlay| > |s.overlay| && r.overlay[|s.overlay|] == UpdateStatus(Processing)
  {
    StopRecording(s.(mainLog := s.mainLog + [ErrorNotice(RecordingErrorNotice)]), outcome)
  }

  /** `toggleRecording`, the hotkey handler: stop when recording, start otherwise.
      `outcome` is what the service answers if this toggle stops. */
  function ToggleRecording(s: State, outcome: ApiOutcome): (r: State)
    ensures r.recording == !s.recording && |r.overlay| > |s.overlay|
    ensures s.recording ==> r.overlay[|s.overlay|] == UpdateStatus(Processing) && r.audioBuffer == s.audioBuffer
    ensures !s.recording ==> r.overlay[|s.overlay|] == UpdateStatus(Recording) && r.audioBuffer == []
  {
    if s.recording then StopRecording(s, outcome) else StartRecording(s)
  }

  /** The `toggle-overlay` handler: flips the flag, shows or hides the overlay, and
      returns the new flag. */
  function ToggleOverlay(s: State): (r: (State, bool))
    ensures r.1 == !s.overlayVisible && r.0.overlayVisible == r.1
    ensures r.0.overlay == s.overlay + [if r.1 then Show else Hide]
    ensures r.0 == s.(overlayVisible := r.1, overlay := r.0.overlay)
  {
    var visible := !s.overlayVisible;
    (s.(overlayVisible := visible, overlay := s.overlay + [if visible then Show else Hide]), visible)
  }

  /** The API key `setupGroqClient` uses: the environment's when it is truthy, else the
      stored one when that is truthy, else none. */
  function SelectKey(envKey: Option<string>, storedKey: Option<string>): (k: Option<string>)
    ensures k.Some? ==> k.value != ""
    ensures k.None? <==> !Truthy(envKey) && !Truthy(storedKey)
    ensures Truthy(envKey) ==> k == envKey
    ensures !Truthy(envKey) && Truthy(storedKey) ==> k == storedKey
  {
    if Truthy(envKey) then envKey
    else if Truthy(storedKey) then storedKey
    else None
  }

  /** `setupGroqClient`: builds a client from the selected key; with no key it tells the
      main window and leaves whatever client exists in place. */
  function SetupGroqClient(s: State, envKey: Option<string>): (r: State)
    ensures Truthy(envKey) ==> r.client == envKey
    ensures !Truthy(envKey) && Truthy(StoreGet(s.store, "apiKey")) ==> r.client == Some(s.store["apiKey"])
    ensures !Truthy(envKey) && !Truthy(StoreGet(s.store, "apiKey")) ==>
      r.client == s.client && r.mainLog == s.mainLog + [ErrorNotice(KeyMissingNotice)]
    ensures Truthy(envKey) || Truthy(StoreGet(s.store, "apiKey")) ==> r.mainLog == s.mainLog
    ensures r == s.(client := r.client, mainLog := r.mainLog)
  {
    match SelectKey(envKey, StoreGet(s.store, "apiKey"))
    case None => s.(mainLog := s.mainLog + [ErrorNotice(KeyMissingNotice)])
    case Some(key) => s.(client := Some(key))
  }

  /** The `get-settings` handler: the stored key and hotkey, with its own defaults. */
  function GetSettings(s: State): (r: Settings)
    ensures "apiKey" in s.store ==> r.apiKey == s.store["apiKey"]
    ensures "apiKey" !in s.store ==> r.apiKey == ""
    ensures "hotkey" in s.store ==> r.hotkey == s.store["hotkey"]
    ensures "hotkey" !in s.store ==> r.hotkey == SettingsHotkeyDefault
  {
    Settings(StoreGetOr(s.store, "apiKey", ""), StoreGetOr(s.store, "hotkey", SettingsHotkeyDefault))
  }

  /** The hotkey `setupGlobalHotkey` registers (the registration itself is not modelled). */
  function RegisteredHotkey(s: State): (h: string)
    ensures "hotkey" !in s.store ==> h == DefaultHotkey
    ensures "hotkey" in s.store ==> h == s.store["hotkey"]
  {
    StoreGetOr(s.store, "hotkey", DefaultHotkey)
  }

  /** The `save-settings` handler: stores both values, then rebuilds the client. */
  function SaveSettings(s: State, settings: Settings, envKey: Option<string>): (r: State)
    ensures r.store == s.store["apiKey" := settings.apiKey]["hotkey" := settings.hotkey]
    ensures GetSettings(r) == settings
    ensures Truthy(envKey) ==> r.client == envKey && r.mainLog == s.mainLog
    ensures !Truthy(envKey) && settings.apiKey != "" ==> r.client == Some(settings.apiKey) && r.mainLog == s.mainLog
    ensures !Truthy(envKey) && settings.apiKey == "" ==>
      r.client == s.client && r.mainLog == s.mainLog + [ErrorNotice(KeyMissingNotice)]
    ensures r == s.(store := r.store, client := r.client, mainLog := r.mainLog)
  {
    SetupGroqClient(s.(store := s.store["apiKey" := settings.apiKey]["hotkey" := settings.hotkey]), envKey)
  }

  /** Everything that can reach the controller from outside. */
  datatype Event =
    | HotkeyPressed(outcome: ApiOutcome)
    | MicData(chunk: Chunk)
    | MicFailed(outcome: ApiOutcome)
    | OverlayToggled
    | SettingsSaved(settings: Settings, envKey: Option<string>)
    | AppInitialized(envKey: Option<string>)

  /** Sends an outside event to its handler: the hotkey to `toggleRecording`, the
      microphone's `data` and `error` events to their handlers, and each IPC call to
      its own handler. */
  function Step(s: State, e: Event): (r: State)
    ensures e.HotkeyPressed? ==> r == ToggleRecording(s, e.outcome)
    ensures e.MicData? ==> r == OnMicData(s, e.chunk)
    ensures e.MicFailed? ==> r == OnMicError(s, e.outcome)
    ensures e.OverlayToggled? ==> r == ToggleOverlay(s).0
    ensures e.SettingsSaved? ==> r == SaveSettings(s, e.settings, e.envKey)
    ensures e.AppInitialized? ==> r == SetupGroqClient(s, e.envKey)
    ensures r.tempDir == s.tempDir
    ensures e.HotkeyPressed? ==> r.recording == !s.recording
    ensures e.MicData? ==> r.audioBuffer == s.audioBuffer + [e.chunk] && r.recording == s.recording
    ensures e.MicFailed? ==>
      !r.recording && |r.mainLog| > |s.mainLog| && r.mainLog[|s.mainLog|] == ErrorNotice(RecordingErrorNotice)
    ensures e.OverlayToggled? ==> r.overlayVisible == !s.overlayVisible && r.recording == s.recording
    ensures e.SettingsSaved? ==> GetSettings(r) == e.settings && r.recording == s.recording
    ensures e.AppInitialized? ==> r.store == s.store && (Truthy(e.envKey) ==> r.client == e.envKey)
  {
    match e
    case HotkeyPressed(outcome) => ToggleRecording(s, outcome)
    case MicData(chunk) => OnMicData(s, chunk)
    case MicFailed(outcome) => OnMicError(s, outcome)
    case OverlayToggled => ToggleOverlay(s).0
    case SettingsSaved(settings, envKey) => SaveSettings(s, settings, envKey)
    case AppInitialized(envKey) => SetupGroqClient(s, envKey)
  }

  /** The state after a sequence of events, handled one at a time. */
  function Run(s: State, events: seq<Event>): (r: State)
    ensures r.tempDir == s.tempDir
    ensures (forall i :: 0 <= i < |events| ==> events[i].MicData?) ==> r.recording == s.recording
    decreases |events|
  {
    if events == [] then s else Run(Step(s, events[0]), events[1..])
  }

  /** The state after the microphone delivers `chunks`, in order. */
  function Feed(s: State, chunks: seq<Chunk>): State
    decreases |chunks|
  {
    if chunks == [] then s else Feed(OnMicData(s, chunks[0]), chunks[1..])
  }
}
