/** The main process's module-level variables and the handlers that reassign them, as
    one object. Each method changes the fields exactly as the matching function of
    module Pipeline says, so every property proved there holds of these methods. */
module MainProcess {
  import opened Values
  import opened Pipeline
  import Sessions

  class Controller {
    var recording: bool
    var audioBuffer: seq<Chunk>
    var client: Option<string>
    var overlayVisible: bool
    var micCalls: seq<MicCall>
    var files: map<string, seq<byte>>
    var clipboard: string
    var overlay: seq<OverlayEvent>
    var mainLog: seq<MainEvent>
    var requests: seq<Request>
    var store: map<string, string>
    const tempDir: string

    /** The fields as a value. */
    function Snapshot(): State
      reads this
    {
      State(recording, audioBuffer, client, overlayVisible, micCalls, files, clipboard,
            overlay, mainLog, requests, store, tempDir)
    }

    ghost predicate Valid()
      reads this
    {
      Pipeline.Valid(Snapshot())
    }

    /** Module load: nothing recorded, no client, overlay hidden. */
    constructor (tempDir: string, store: map<string, string>, files: map<string, seq<byte>>, clipboard: string)
      ensures Snapshot() == Initial(tempDir, store, files, clipboard)
      ensures Valid()
    {
      this.tempDir := tempDir;
      this.store := store;
      this.files := files;
      this.clipboard := clipboard;
      recording := false;
      audioBuffer := [];
      client := None;
      overlayVisible := false;
      micCalls := [];
      overlay := [];
      mainLog := [];
      requests := [];
    }

    /** `setupGroqClient`, with the process environment's key as a parameter. */
    method SetupGroqClient(envKey: Option<string>)
      modifies this
      ensures Snapshot() == Pipeline.SetupGroqClient(old(Snapshot()), envKey)
      ensures old(Valid()) ==> Valid()
    {
      var apiKey := SelectKey(envKey, StoreGet(store, "apiKey"));
      if apiKey.None? {
        mainLog := mainLog + [ErrorNotice(KeyMissingNotice)];
        return;
      }
      client := apiKey;
    }

    /** The hotkey handler. */
    method ToggleRecording(outcome: ApiOutcome)
      modifies this
      ensures Snapshot() == Pipeline.ToggleRecording(old(Snapshot()), outcome)
      ensures old(Valid()) ==> Valid()
    {
      if recording {
        StopRecording(outcome);
      } else {
        StartRecording();
      }
    }

    /** `startRecording`; it keeps the invariant when no recording is under way, which
        is the only way the hotkey handler calls it. */
    method StartRecording()
      modifies this
      ensures Snapshot() == Pipeline.StartRecording(old(Snapshot()))
      ensures old(Valid()) && !old(recording) ==> Valid()
    {
      ghost var before := Snapshot();
      recording := true;
      audioBuffer := [];
      micCalls := micCalls + [MicStart];
      mainLog := mainLog + [RecordingStatus(true)];
      overlay := overlay + [UpdateStatus(Recording), Show];
      overlayVisible := true;
      if Pipeline.Valid(before) && !before.recording { Sessions.StartKeepsValid(before); }
    }

    /** The microphone stream's `data` handler. */
    method OnMicData(chunk: Chunk)
      modifies this
      ensures Snapshot() == Pipeline.OnMicData(old(Snapshot()), chunk)
      ensures old(Valid()) ==> Valid()
    {
      audioBuffer := audioBuffer + [chunk];
    }

    /** The microphone's `error` handler. */
    method OnMicError(outcome: ApiOutcome)
      modifies this
      ensures Snapshot() == Pipeline.OnMicError(old(Snapshot()), outcome)
      ensures old(Valid()) ==> Valid()
    {
      ghost var before := Snapshot();
      mainLog := mainLog + [ErrorNotice(RecordingErrorNotice)];
      StopRecording(outcome);
      if Pipeline.Valid(before) { Sessions.MicErrorKeeps(before, outcome); }
    }

    /** `stopRecording`. */
    method StopRecording(outcome: ApiOutcome)
      modifies this
      ensures Snapshot() == Pipeline.StopRecording(old(Snapshot()), outcome)
      ensures old(Valid()) ==> Valid()
    {
      ghost var before := Snapshot();
      recording := false;
      if micCalls != [] {
        micCalls := micCalls + [MicStop];
      }
      mainLog := mainLog + [RecordingStatus(false)];
      overlay := overlay + [UpdateStatus(Processing)];
      assert Snapshot() == Stopped(before);
      var transcription := PerformTranscription(outcome);
      AnnounceResult(transcription);
      if Pipeline.Valid(before) { Sessions.StopKeepsValid(before, outcome); }
    }

    /** The part of `stopRecording` after the transcription: deliver a non-empty text
        and announce "done", or announce "error". */
    method AnnounceResult(transcription: Result<string>)
      modifies this
      ensures Snapshot() == Announce(old(Snapshot()), transcription)
    {
      match transcription
      case Ok(text) =>
        if text != "" {
          clipboard := text;
          mainLog := mainLog + [TranscriptionResult(text)];
          overlay := overlay + [UpdateStatus(Done), HideAfter(SuccessHideMs)];
        }
      case Err(_) =>
        mainLog := mainLog + [ErrorNotice(TranscriptionErrorNotice)];
        overlay := overlay + [UpdateStatus(Error), HideAfter(ErrorHideMs)];
    }

    /** `performTranscription`; `outcome` is what the service answers. */
    method PerformTranscription(outcome: ApiOutcome) returns (result: Result<string>)
      modifies this
      ensures (Snapshot(), result) == Pipeline.PerformTranscription(old(Snapshot()), outcome)
    {
      if client.None? {
        return Err(ClientMissingMessage);
      }
      var path := AudioFilePath(tempDir);
      files := files[path := Concat(audioBuffer)];
      requests := requests + [Request(path, files[path], TranscriptionModel, TranscriptionLanguage, ResponseFormat)];
      match outcome
      case Transcribed(text) =>
        files := files - {path};
        result := Ok(text);
      case ApiError(message) =>
        result := Err(message);
    }

    /** The `toggle-overlay` handler. */
    method ToggleOverlay() returns (visible: bool)
      modifies this
      ensures (Snapshot(), visible) == Pipeline.ToggleOverlay(old(Snapshot()))
      ensures old(Valid()) ==> Valid()
    {
      overlayVisible := !overlayVisible;
      if overlayVisible {
        overlay := overlay + [Show];
      } else {
        overlay := overlay + [Hide];
      }
      visible := overlayVisible;
    }

    /** The `get-overlay-visibility` handler. */
    method GetOverlayVisibility() returns (visible: bool)
      ensures visible == overlayVisible
    {
      visible := overlayVisible;
    }

    /** The `get-recording-status` handler. */
    method GetRecordingStatus() returns (on: bool)
      ensures on == recording
      ensures Valid() ==> (on <==> MicListening(Snapshot()))
    {
      on := recording;
    }

    /** The `get-settings` handler. */
    method GetSettings() returns (settings: Settings)
      ensures settings == Pipeline.GetSettings(Snapshot())
      ensures "hotkey" !in store ==> settings.hotkey != RegisteredHotkey(Snapshot())
    {
      settings := Settings(StoreGetOr(store, "apiKey", ""), StoreGetOr(store, "hotkey", SettingsHotkeyDefault));
      if "hotkey" !in store {
        Sessions.HotkeyDefaultsDisagree(Snapshot());
      }
    }

    /** The `save-settings` handler (the hotkey re-registration is not modelled). */
    method SaveSettings(settings: Settings, envKey: Option<string>)
      modifies this
      ensures Snapshot() == Pipeline.SaveSettings(old(Snapshot()), settings, envKey)
      ensures old(Valid()) ==> Valid()
    {
      store := store["apiKey" := settings.apiKey];
      store := store["hotkey" := settings.hotkey];
      SetupGroqClient(envKey);
    }
  }
}
