# Recording controller of the dictation app's main process

The desktop app records speech when the user presses a global hotkey and transcribes it
with a cloud speech-to-text service. The main process (`src/main/main.js`) keeps its
recording controller in module-level variables:
- `isRecording`;
- `audioBuffer`, the list of microphone chunks;
- `groq`, the service client;
- `isOverlayVisible`.

The controller's handlers work as follows:
- The hotkey toggles between starting and stopping a recording.
- Microphone `data` events append to the buffer.
- A microphone `error` takes the stop path.
- Stopping announces "processing" and writes the joined buffer to a fixed temp file, then sends that file to the service.
- A non-empty text goes to the clipboard and is announced "done". An error is announced "error".
- Small IPC handlers toggle the overlay and report the state and the settings.

This project models that controller in Dafny:

- `values.dfy` (module `Values`): bytes and chunks, and the overlay status vocabulary. It
  also holds what is sent to the two windows, the microphone calls, the transcription
  request, the settings object, and the constants of the pipeline. These are the hide
  delays 700 ms and 2000 ms, the file name `recorded_audio.wav`, the model, language and
  response format, both hotkey defaults, and the error texts.
- `pipeline.dfy` (module `Pipeline`): the state as a value (`State`) and one function per
  handler, each with a contract that says what the handler does to the state. `Step` and
  `Run` handle a sequence of outside events, and `Feed` a sequence of microphone chunks.
- `sessions.dfy` (module `Sessions`): properties that span several events. These are whole
  record–transcribe–deliver sessions (success, failure, no client, empty text, microphone
  error), the buffer's in-order growth, the joined audio that reaches the service, the
  overlay round trip, and an invariant kept by every event sequence. The invariant says:
  - recording is on exactly while the microphone listens;
  - the microphone is never started twice without a stop between;
  - logs only grow;
  - only the temp file is ever written or removed;
  - the clipboard only ever receives a non-empty text.
- `main_process.dfy` (module `MainProcess`): class `Controller`, whose fields are the
  module-level variables together with what the process changes in the world:
  - the temp files, as a map from path to bytes;
  - the clipboard;
  - a log of overlay events;
  - a log of main-window messages;
  - a log of microphone calls;
  - the transcription requests;
  - the settings store.

  Each handler is a method that is proved to change the fields exactly as the matching
  `Pipeline` function says (`Snapshot() == Pipeline.F(old(Snapshot()), …)`). So every
  property proved about the functions holds for the methods.

Outside inputs are parameters:
- the service's answer (`ApiOutcome`: a text or an error);
- the environment's API key;
- the temp directory;
- the initial store, files and clipboard.

The code has:
- no guard against re-entry;
- no check for an empty capture before transcribing;
- no paste into the focused window, only a clipboard write;
- no removal of the temp file when the service call fails.

The model has none of these either, and lemmas state the consequences (`FailedSession`,
`EmptyTextSession`, `SecondStopResendsAudio`).

## Model

| member | source | states |
|---|---|---|
| `Values.StatusName` | src/main/main.js:156-196 | each status has its own wire name: "recording", "processing", "done" or "error", each if and only if it is that status |
| `Values.AudioFilePath` | src/main/main.js:206 | the temp file is the temp directory, one `/`, then the fixed name `recorded_audio.wav`, with nothing overlapping |
| `Values.Concat` | src/main/main.js:207 | the joined audio is empty exactly when every chunk is empty; one chunk joins to itself; the first chunk leads the result |
| `Values.Truthy` | src/main/main.js:122-123 | a string-or-undefined is falsy exactly when it is undefined or the empty string |
| `Values.StoreGet` | src/main/main.js:122 | `store.get(key)` is defined exactly when the key is stored, and then is the stored value |
| `Values.StoreGetOr` | src/main/main.js:229-230 | `store.get(key, default)` is the stored value, or the default when the key is absent |
| `Pipeline.Initial` | src/main/main.js:18-23 | at load nothing is recording, the buffer is empty, there is no client and the overlay flag is off |
| `Pipeline.StartRecording` | src/main/main.js:150-160 | sets the flag, resets the buffer to empty, starts one microphone, sends "recording" then shows the overlay and sets the overlay flag; files, clipboard, client and requests unchanged |
| `Pipeline.OnMicData` | src/main/main.js:162-164 | a chunk is appended at the end; earlier chunks are kept in order; nothing else changes |
| `Pipeline.PerformTranscription` | src/main/main.js:201-224 | without a client it throws and changes nothing (no file written); otherwise the temp file gets the joined buffer, a request is sent with that content and the fixed model, language and format; on success the file is removed and the text returned, on an API error the file remains and the error is rethrown |
| `Pipeline.StopRecording` | src/main/main.js:177-199 | clears the flag unconditionally, stops the microphone only if one exists, sends "processing" first; a non-empty text goes verbatim to the clipboard followed by "done" and a 700 ms hide; an empty text adds nothing; an error leaves the clipboard and sends "error" and a 2000 ms hide; the buffer and the overlay flag are not reset |
| `Pipeline.Stopped` | src/main/main.js:178-183 | the part of a stop before transcription: flag cleared, microphone stopped if present, "processing" sent |
| `Pipeline.Announce` | src/main/main.js:186-198 | the part after transcription: clipboard, result message, "done" and 700 ms for a non-empty text; nothing for an empty one; error notice, "error" and 2000 ms for a throw |
| `Pipeline.OnMicError` | src/main/main.js:166-170 | a microphone error notifies the main window and then takes the stop path, which clears the flag and sends "processing" |
| `Pipeline.ToggleRecording` | src/main/main.js:131-137 | every toggle flips the recording flag; when recording it stops (buffer kept, "processing" next), otherwise it starts (buffer emptied, "recording" next) |
| `Pipeline.ToggleOverlay` | src/main/main.js:246-255 | flips the overlay flag, shows or hides the overlay accordingly, returns the new flag, changes nothing else |
| `Pipeline.SelectKey` | src/main/main.js:122-123 | the environment key wins when truthy, else a truthy stored key, else no key |
| `Pipeline.SetupGroqClient` | src/main/main.js:121-129 | builds the client from the selected key and sends nothing to the main window; with no key it reports the missing key and keeps the existing client; nothing else changes |
| `Pipeline.GetSettings` | src/main/main.js:228-231 | returns the stored key and hotkey, defaulting to "" and "Control+Shift+Space" |
| `Pipeline.RegisteredHotkey` | src/main/main.js:103 | the hotkey registered is the stored one, defaulting to "CommandOrControl+Shift+K" |
| `Pipeline.SaveSettings` | src/main/main.js:232-237 | stores both values (so get-settings returns exactly them) and rebuilds the client: the environment key wins; otherwise a non-empty new key is used; with neither, the missing key is reported and the old client kept; nothing else changes |
| `Pipeline.Step` | src/main/main.js:106-255 | each outside event's new state is exactly that of its own handler (hotkey to toggle-recording, microphone data and error to their handlers, each IPC call to its handler, with the event's environment key); hence a hotkey press flips recording, a chunk is appended, a microphone error notifies and stops, an overlay toggle flips the overlay flag, a settings save makes get-settings return the saved values, app initialisation sets the client from a truthy environment key; the temp directory never changes |
| `Pipeline.Run` | src/main/main.js:106-255 | a sequence of events leaves the temp directory alone, and chunks alone never change the recording flag |
| `Sessions.ConcatAppend` | src/main/main.js:207 | joining chunks distributes over concatenation, so the file is the chunks end to end in order |
| `Sessions.ConcatPlacesChunk` | src/main/main.js:207 | every chunk appears in the file between the chunks before it and those after it |
| `Sessions.FeedAppends` | src/main/main.js:162-164 | any number of data events append their chunks in arrival order and change nothing else |
| `Sessions.CapturedSinceStart` | src/main/main.js:150-164 | after a start and some chunks, the buffer is exactly those chunks and recording is still on |
| `Sessions.SessionOpening` | src/main/main.js:131-183 | a press–chunks–press session is a start, the chunks, then a stop on that buffer |
| `Sessions.SuccessfulSession` | src/main/main.js:150-219 | a successful session sends exactly recording, processing, done; ends with a 700 ms hide; puts the text on the clipboard; sends the joined chunks; removes the temp file; leaves the overlay flag on |
| `Sessions.FailedSession` | src/main/main.js:193-223 | a failed service call gives recording, processing, error and a 2000 ms hide; the clipboard is unchanged; the temp file remains with the joined chunks |
| `Sessions.ClientlessSession` | src/main/main.js:201-204 | without a client, no file is written and no request is sent; the statuses are recording, processing, error |
| `Sessions.EmptyTextSession` | src/main/main.js:186-192 | an empty text sends no status after processing, leaves the clipboard alone, still removes the file, and the request is sent whatever was captured |
| `Sessions.MicErrorSession` | src/main/main.js:166-170 | a microphone error mid-capture notifies the main window; the overlay, clipboard and files then end as after a hotkey stop |
| `Sessions.SecondStopResendsAudio` | src/main/main.js:177-207 | the buffer is not cleared on stop, so a second stop sends the same audio again |
| `Sessions.ToggleOverlayTwice` | src/main/main.js:246-255 | two overlay toggles restore the flag; each returns the flag it set |
| `Sessions.HotkeyDefaultsDisagree` | src/main/main.js:228-231 | with no stored hotkey, get-settings reports a hotkey other than the one registered at line 103 |
| `Sessions.StartKeepsValid` | src/main/main.js:150-154 | a start from a non-recording state keeps flag and microphone in step with no double start |
| `Sessions.StopKeepsValid` | src/main/main.js:177-181 | a stop keeps flag and microphone in step |
| `Sessions.StopKeeps` | src/main/main.js:177-223 | a stop also only appends to logs, touches only the temp file and never empties the clipboard |
| `Sessions.MicErrorKeeps` | src/main/main.js:166-170 | the same for the microphone error handler |
| `Sessions.SettingsKeep` | src/main/main.js:232-255 | overlay toggles, settings saves and client setup keep the invariant and the history, and leave the recording flag, microphone calls, buffer, files, clipboard and requests unchanged |
| `Sessions.StepKeeps` | src/main/main.js:131-255 | every handled event keeps the invariant and the history |
| `Sessions.RunKeeps` | src/main/main.js:131-257 | over any event sequence: recording exactly while the microphone listens, no two starts without a stop, logs only grow, only the temp file changes, the clipboard never gets an empty text |
| `Sessions.InitialValid` | src/main/main.js:18-23 | the initial state satisfies the invariant |
| `Sessions.RunAppend` | src/main/main.js:106-255 | events are handled one at a time: the last event of a sequence is handled in the state the earlier ones leave |
| `Sessions.MicOnlyAfterStart` | src/main/main.js:150-183 | after any events from the start of the app, a microphone instance exists (the `if (micInstance)` test) exactly when a recording has been started |
| `MainProcess.Controller.constructor` | src/main/main.js:18-23 | the object starts in the initial state |
| `MainProcess.Controller.SetupGroqClient` | src/main/main.js:121-129 | changes the fields as `Pipeline.SetupGroqClient` and keeps the invariant |
| `MainProcess.Controller.ToggleRecording` | src/main/main.js:131-137 | changes the fields as `Pipeline.ToggleRecording` and keeps the invariant |
| `MainProcess.Controller.StartRecording` | src/main/main.js:150-160 | changes the fields as `Pipeline.StartRecording`; keeps the invariant when started while not recording |
| `MainProcess.Controller.OnMicData` | src/main/main.js:162-164 | appends the chunk to the buffer field, as `Pipeline.OnMicData`, and keeps the invariant |
| `MainProcess.Controller.OnMicError` | src/main/main.js:166-170 | changes the fields as `Pipeline.OnMicError` and keeps the invariant |
| `MainProcess.Controller.StopRecording` | src/main/main.js:177-199 | changes the fields as `Pipeline.StopRecording` and keeps the invariant |
| `MainProcess.Controller.AnnounceResult` | src/main/main.js:186-198 | changes the fields as `Pipeline.Announce` |
| `MainProcess.Controller.PerformTranscription` | src/main/main.js:201-224 | writes, sends and removes as `Pipeline.PerformTranscription` and returns its result |
| `MainProcess.Controller.ToggleOverlay` | src/main/main.js:246-255 | flips the overlay field and returns it, as `Pipeline.ToggleOverlay`, and keeps the invariant |
| `MainProcess.Controller.GetOverlayVisibility` | src/main/main.js:257 | returns the overlay flag |
| `MainProcess.Controller.GetRecordingStatus` | src/main/main.js:227 | returns the recording flag, which under the invariant says whether the microphone listens |
| `MainProcess.Controller.GetSettings` | src/main/main.js:228-231 | returns the stored settings with their defaults; with no stored hotkey it differs from the registered one |
| `MainProcess.Controller.SaveSettings` | src/main/main.js:232-237 | changes the fields as `Pipeline.SaveSettings` and keeps the invariant |

## Left out

- Window creation, overlay transparency and app lifecycle events (src/main/main.js:25-96) are platform UI plumbing; the `initialize-app` handler is modelled only as its client setup (event `AppInitialized`).
- Hotkey registration through `globalShortcut` (src/main/main.js:98-119) is a foreign call; only the registered hotkey string (`RegisteredHotkey`) is kept, and `save-settings` does not model re-registering it.
- Cursor following (`updateOverlayPosition`, the 16 ms interval and its clearing on the microphone's `end` event) is not modelled; it only moves the overlay window.
- The `setTimeout` hides are recorded as `HideAfter(ms)` events with their delays; the timers and the later hide itself are not modelled, so the overlay flag stays set after a session exactly as in the code.
- Asynchronous interleaving is not modelled: each handler runs to completion. In the code `stopRecording` awaits the service with the flag already cleared, so a hotkey press during that wait starts a new recording and empties the buffer; the model cannot express that overlap.
- The network call to the service is the `ApiOutcome` parameter; the request's `temperature: 0.0` (a float) is not recorded, and a response without `text` is folded into `Transcribed("")`.
- `fs.writeFileSync` and `fs.unlinkSync` are updates of a file map and never fail; a failing `unlinkSync`, which the code would report as a transcription error, is not modelled.
- `clipboard.writeText`, the microphone library and window messaging are logs that never fail; `console.log`/`console.error` output is not modelled.
- The settings store is a map present from the start; the asynchronous `electron-store` import (src/main/main.js:10-14) and a `store.get` before it resolves are not modelled.
- A microphone error from an earlier microphone instance is handled, as in the code, against the current state; which instance raised it is not tracked.
- `Pipeline.ToggleRecording`: its own contract states the flag flip and the first status only; the full effect is that of `StartRecording` or `StopRecording`, whose contracts state it.
- `Pipeline.OnMicError`: its own contract states the notice and the start of the stop path; the rest is `StopRecording`'s contract (see `MicErrorSession`).
- `Values.AudioFilePath`: the temp directory is taken as a normalised directory without a trailing separator; `path.join`'s normalisation (a trailing `/` or an empty directory) and the platform's path separator are not modelled, so the model joins with `/` verbatim.
- The environment's API key is a field of the `SettingsSaved` and `AppInitialized` events rather than a constant of the state. A run may therefore give two events different keys, which the process cannot do. This admits more runs than the code; every invariant is proved for all of them.
- The renderer (`src/renderer/App.js`, `src/renderer/Settings.js`), the IPC bridge `src/main/preload.js`, build and signing configuration, the icon script and the manual test scripts are not part of this model.
