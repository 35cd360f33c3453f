/** Values shared by the main-process model of the dictation app: bytes and audio
    chunks, the overlay status vocabulary, the events the main process sends to its two
    windows, the calls it makes on the microphone, and the fixed constants of the
    recording pipeline. */
module Values {

  /** One byte of captured audio, as delivered by the microphone stream. */
  newtype byte = x: int | 0 <= x < 256

  /** One `data` event of the microphone stream. */
  type Chunk = seq<byte>

  datatype Option<T> = None | Some(value: T)

  /** A value, or the message of the error that was thrown instead. */
  datatype Result<T> = Ok(value: T) | Err(message: string)

  /** The four statuses the overlay window is told about. */
  datatype Status = Recording | Processing | Done | Error

  /** What the overlay window receives: a status update, or a show/hide, or a hide
      scheduled after a delay in milliseconds (the timer itself is not modelled). */
  datatype OverlayEvent = UpdateStatus(status: Status) | Show | Hide | HideAfter(ms: nat)

  /** What the main window receives. */
  datatype MainEvent =
    | RecordingStatus(on: bool)
    | TranscriptionResult(text: string)
    | ErrorNotice(message: string)

  /** Calls made on the microphone library. */
  datatype MicCall = MicStart | MicStop

  /** One request to the speech-to-text service: the temp file it reads and the
      bytes that file held when it was read, with the fixed request options. */
  datatype Request = Request(path: string, audio: seq<byte>, model: string, language: string, responseFormat: string)

  /** What the speech-to-text service answers; `Transcribed("")` also stands for a
      response without a text. */
  datatype ApiOutcome = Transcribed(text: string) | ApiError(message: string)

  /** The object the `get-settings` handler returns and `save-settings` receives. */
  datatype Settings = Settings(apiKey: string, hotkey: string)

  /** The wire name of each status, as sent on the `update-status` channel; each status
      has its own name. The overlay log records the `Status` itself, so this function
      only fixes the vocabulary the overlay window receives. */
  function StatusName(s: Status): (name: string)
    ensures name == "recording" <==> s == Recording
    ensures name == "processing" <==> s == Processing
    ensures name == "done" <==> s == Done
    ensures name == "error" <==> s == Error
  {
    match s
    case Recording => "recording"
    case Processing => "processing"
    case Done => "done"
    case Error => "error"
  }

  /** Overlay hide delays after a delivered transcription and after an error. */
  const SuccessHideMs: nat := 700
  const ErrorHideMs: nat := 2000

  /** The hotkey registered when the store has none. */
  const DefaultHotkey: string := "CommandOrControl+Shift+K"
  /** The hotkey `get-settings` reports when the store has none. */
  const SettingsHotkeyDefault: string := "Control+Shift+Space"

  const AudioFileName: string := "recorded_audio.wav"
  const TranscriptionModel: string := "distil-whisper-large-v3-en"
  const TranscriptionLanguage: string := "en"
  const ResponseFormat: string := "json"

  const ClientMissingMessage: string := "Groq client not initialized"
  const KeyMissingNotice: string := "Groq API key not found. Please set it in the settings."
  const RecordingErrorNotice: string := "Error during recording"
  const TranscriptionErrorNotice: string := "Error during transcription"

  /** The temp file every transcription writes: one fixed name in the temp directory. */
  function AudioFilePath(tempDir: string): (path: string)
    ensures |path| > |AudioFileName| && path[|path| - |AudioFileName|..] == AudioFileName
    ensures |path| > |tempDir| && path[..|tempDir|] == tempDir
    ensures |path| == |tempDir| + 1 + |AudioFileName| && path[|tempDir|] == '/'
  {
    tempDir + "/" + AudioFileName
  }

  /** JavaScript truthiness of a value that is a string or undefined. */
  predicate Truthy(v: Option<string>)
    ensures Truthy(v) <==> v != None && v != Some("")
  {
    v.Some? && v.value != ""
  }

  /** `store.get(key)`: the stored string, or undefined. */
  function StoreGet(store: map<string, string>, key: string): (v: Option<string>)
    ensures v.Some? <==> key in store
    ensures v.Some? ==> v.value == store[key]
  {
    if key in store then Some(store[key]) else None
  }

  /** `store.get(key, default)`. */
  function StoreGetOr(store: map<string, string>, key: string, default: string): (v: string)
    ensures key in store ==> v == store[key]
    ensures key !in store ==> v == default
  {
    if key in store then store[key] else default
  }

  /** `Buffer.concat(chunks)`: the chunks joined end to end, in order. */
  function Concat(chunks: seq<Chunk>): (joined: seq<byte>)
    ensures joined == [] <==> forall i :: 0 <= i < |chunks| ==> chunks[i] == []
    ensures |chunks| == 1 ==> joined == chunks[0]
    ensures chunks != [] ==> |joined| >= |chunks[0]| && joined[..|chunks[0]|] == chunks[0]
  {
    if chunks == [] then [] else chunks[0] + Concat(chunks[1..])
  }
}
