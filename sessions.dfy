/** What the recording controller does over several events: whole record-transcribe-
    deliver sessions, the invariants every event keeps, and the overlay handler's
    round trip. */
module Sessions {
  import opened Values
  import opened Pipeline

  /** The status an overlay event announces, if any. */
  function StatusOf(e: OverlayEvent): seq<Status>
  {
    if e.UpdateStatus? then [e.status] else []
  }

  /** The statuses in an overlay log, in the order they were sent. */
  function Statuses(events: seq<OverlayEvent>): seq<Status>
    decreases |events|
  {
    if events == [] then [] else StatusOf(events[0]) + Statuses(events[1..])
  }

  /** The statuses of two logs one after the other are those of the first, then those
      of the second. */
  lemma {:induction false} StatusesAppend(a: seq<OverlayEvent>, b: seq<OverlayEvent>)
    ensures Statuses(a + b) == Statuses(a) + Statuses(b)
    decreases |a|
  {
    if a == [] {
      assert a + b == b;
    } else {
      var ab := a + b;
      assert ab[0] == a[0] && ab[1..] == a[1..] + b;
      StatusesAppend(a[1..], b);
      calc {
        Statuses(ab);
        StatusOf(a[0]) + Statuses(a[1..] + b);
        StatusOf(a[0]) + (Statuses(a[1..]) + Statuses(b));
      }
    }
  }

  /** Joining two runs of chunks is joining each run and putting the results end to end. */
  lemma {:induction false} ConcatAppend(a: seq<Chunk>, b: seq<Chunk>)
    ensures Concat(a + b) == Concat(a) + Concat(b)
    decreases |a|
  {
    if a == [] {
      assert a + b == b;
    } else {
      assert (a + b)[1..] == a[1..] + b;
      ConcatAppend(a[1..], b);
    }
  }

  /** Each chunk sits in the joined audio right after the join of the chunks before it
      and right before the join of the chunks after it. */
  lemma {:induction false} ConcatPlacesChunk(chunks: seq<Chunk>, k: nat)
    requires k < |chunks|
    ensures Concat(chunks) == Concat(chunks[..k]) + chunks[k] + Concat(chunks[k + 1..])
  {
    assert chunks == chunks[..k] + [chunks[k]] + chunks[k + 1..];
    ConcatAppend(chunks[..k] + [chunks[k]], chunks[k + 1..]);
    ConcatAppend(chunks[..k], [chunks[k]]);
    assert Concat([chunks[k]]) == chunks[k] + Concat([]);
    assert chunks[k] + Concat([]) == chunks[k];
  }

  /** Microphone data only ever extends the buffer, in arrival order, and touches
      nothing else. */
  lemma {:induction false} FeedAppends(s: State, chunks: seq<Chunk>)
    ensures Feed(s, chunks) == s.(audioBuffer := s.audioBuffer + chunks)
    decreases |chunks|
  {
    if chunks == [] {
      assert s.audioBuffer + chunks == s.audioBuffer;
    } else {
      FeedAppends(OnMicData(s, chunks[0]), chunks[1..]);
      assert (s.audioBuffer + [chunks[0]]) + chunks[1..] == s.audioBuffer + chunks;
    }
  }

  /** After a hotkey press that starts recording and any number of chunks, the buffer
      holds exactly those chunks, in arrival order, and recording is still on. */
  lemma CapturedSinceStart(s: State, chunks: seq<Chunk>, outcome: ApiOutcome)
    requires !s.recording
    ensures Feed(ToggleRecording(s, outcome), chunks).audioBuffer == chunks
    ensures Feed(ToggleRecording(s, outcome), chunks).recording
  {
    FeedAppends(ToggleRecording(s, outcome), chunks);
  }

  /** The state after a hotkey press that starts recording, the chunks, and a second
      hotkey press that stops it. */
  function Session(s: State, chunks: seq<Chunk>, outcome: ApiOutcome): State
  {
    ToggleRecording(Feed(ToggleRecording(s, outcome), chunks), outcome)
  }

  /** The request a session with these chunks sends. */
  function SessionRequest(s: State, chunks: seq<Chunk>): Request
  {
    Request(AudioFilePath(s.tempDir), Concat(chunks), TranscriptionModel, TranscriptionLanguage, ResponseFormat)
  }

  /** The facts every session shares, whatever the service answers. */
  lemma SessionOpening(s: State, chunks: seq<Chunk>, outcome: ApiOutcome)
    requires !s.recording
    ensures var started := Feed(ToggleRecording(s, outcome), chunks);
      started == StartRecording(s).(audioBuffer := chunks) &&
      Session(s, chunks, outcome) == StopRecording(started, outcome)
  {
    FeedAppends(ToggleRecording(s, outcome), chunks);
  }

  /** A successful session: the statuses are exactly recording, processing, done; the
      text is on the clipboard verbatim; the service got the chunks joined in order;
      the temp file is gone; the overlay flag is left set. */
  lemma SuccessfulSession(s: State, chunks: seq<Chunk>, text: string)
    requires !s.recording && s.client.Some? && text != ""
    ensures var r := Session(s, chunks, Transcribed(text));
      !r.recording && r.clipboard == text && r.overlayVisible &&
      Statuses(r.overlay) == Statuses(s.overlay) + [Recording, Processing, Done] &&
      r.overlay[|r.overlay| - 1] == HideAfter(SuccessHideMs) &&
      r.requests == s.requests + [SessionRequest(s, chunks)] &&
      r.files == s.files - {AudioFilePath(s.tempDir)} &&
      r.audioBuffer == chunks
  {
    var outcome := Transcribed(text);
    SessionOpening(s, chunks, outcome);
    var r := Session(s, chunks, outcome);
    assert r.overlay == s.overlay + Opening + DeliveredTail;
    StatusesAfterDelivery(s.overlay);
  }

  /** A session whose transcription call fails: statuses recording, processing, error,
      a 2000 ms hide, the clipboard untouched, and the temp file left behind holding
      the joined audio. */
  lemma FailedSession(s: State, chunks: seq<Chunk>, message: string)
    requires !s.recording && s.client.Some?
    ensures var r := Session(s, chunks, ApiError(message));
      !r.recording && r.clipboard == s.clipboard &&
      Statuses(r.overlay) == Statuses(s.overlay) + [Recording, Processing, Error] &&
      r.overlay[|r.overlay| - 1] == HideAfter(ErrorHideMs) &&
      r.requests == s.requests + [SessionRequest(s, chunks)] &&
      r.files == s.files[AudioFilePath(s.tempDir) := Concat(chunks)]
  {
    var outcome := ApiError(message);
    SessionOpening(s, chunks, outcome);
    var r := Session(s, chunks, outcome);
    assert r.overlay == s.overlay + Opening + FailedTail;
    StatusesAfterFailure(s.overlay);
  }

  /** A session without a client: the error path is taken before any file is written
      or any request sent. */
  lemma ClientlessSession(s: State, chunks: seq<Chunk>, outcome: ApiOutcome)
    requires !s.recording && s.client.None?
    ensures var r := Session(s, chunks, outcome);
      !r.recording && r.clipboard == s.clipboard &&
      Statuses(r.overlay) == Statuses(s.overlay) + [Recording, Processing, Error] &&
      r.requests == s.requests && r.files == s.files
  {
    SessionOpening(s, chunks, outcome);
    var r := Session(s, chunks, outcome);
    assert r.overlay == s.overlay + Opening + FailedTail;
    StatusesAfterFailure(s.overlay);
  }

  /** A session whose service answers with no text: the file is removed but nothing is
      delivered and no status follows "processing". Nothing checks for an empty capture
      first: the request is sent whatever the chunks are. */
  lemma EmptyTextSession(s: State, chunks: seq<Chunk>)
    requires !s.recording && s.client.Some?
    ensures var r := Session(s, chunks, Transcribed(""));
      !r.recording && r.clipboard == s.clipboard &&
      Statuses(r.overlay) == Statuses(s.overlay) + [Recording, Processing] &&
      r.requests == s.requests + [SessionRequest(s, chunks)] &&
      r.files == s.files - {AudioFilePath(s.tempDir)}
  {
    var outcome := Transcribed("");
    SessionOpening(s, chunks, outcome);
    var r := Session(s, chunks, outcome);
    assert r.overlay == s.overlay + Opening;
    StatusesAfterOpening(s.overlay);
  }

  /** The overlay events every session starts with, and those a delivered and a failed
      transcription add after them. */
  const Opening: seq<OverlayEvent> := [UpdateStatus(Recording), Show, UpdateStatus(Processing)]
  const DeliveredTail: seq<OverlayEvent> := [UpdateStatus(Done), HideAfter(SuccessHideMs)]
  const FailedTail: seq<OverlayEvent> := [UpdateStatus(Error), HideAfter(ErrorHideMs)]

  /** A session's opening adds the statuses recording, processing. */
  lemma StatusesAfterOpening(log: seq<OverlayEvent>)
    ensures Statuses(log + Opening) == Statuses(log) + [Recording, Processing]
  {
    StatusesAppend(log, Opening);
    assert Opening[1..][1..] == [UpdateStatus(Processing)];
    assert Statuses([UpdateStatus(Processing)]) == [Processing] by {
      assert [UpdateStatus(Processing)][1..] == [];
    }
  }

  /** A delivered session adds the statuses recording, processing, done. */
  lemma StatusesAfterDelivery(log: seq<OverlayEvent>)
    ensures Statuses(log + Opening + DeliveredTail) == Statuses(log) + [Recording, Processing, Done]
  {
    StatusesAfterOpening(log);
    StatusesAppend(log + Opening, DeliveredTail);
    assert DeliveredTail[1..] == [HideAfter(SuccessHideMs)] && DeliveredTail[1..][1..] == [];
    assert Statuses(DeliveredTail[1..]) == StatusOf(HideAfter(SuccessHideMs)) + Statuses([]) == [];
    assert Statuses(DeliveredTail) == StatusOf(DeliveredTail[0]) + Statuses(DeliveredTail[1..]) == [Done];
  }

  /** A failed session adds the statuses recording, processing, error. */
  lemma StatusesAfterFailure(log: seq<OverlayEvent>)
    ensures Statuses(log + Opening + FailedTail) == Statuses(log) + [Recording, Processing, Error]
  {
    StatusesAfterOpening(log);
    StatusesAppend(log + Opening, FailedTail);
    assert FailedTail[1..] == [HideAfter(ErrorHideMs)] && FailedTail[1..][1..] == [];
    assert Statuses(FailedTail[1..]) == StatusOf(HideAfter(ErrorHideMs)) + Statuses([]) == [];
    assert Statuses(FailedTail) == StatusOf(FailedTail[0]) + Statuses(FailedTail[1..]) == [Error];
  }

  /** A microphone error mid-capture takes the stop path: the main window hears of the
      recording error, then the same statuses and delivery as a hotkey stop follow. */
  lemma MicErrorSession(s: State, chunks: seq<Chunk>, outcome: ApiOutcome)
    requires !s.recording
    ensures var started := Feed(ToggleRecording(s, outcome), chunks);
      var r := OnMicError(started, outcome);
      !r.recording && r.audioBuffer == chunks &&
      r.mainLog[|started.mainLog|] == ErrorNotice(RecordingErrorNotice) &&
      r.overlay == Session(s, chunks, outcome).overlay &&
      r.clipboard == Session(s, chunks, outcome).clipboard &&
      r.files == Session(s, chunks, outcome).files
  {
    SessionOpening(s, chunks, outcome);
  }

  /** Stopping does not clear the buffer, so a second stop (a late microphone error,
      say) sends the same audio again. */
  lemma SecondStopResendsAudio(s: State, outcome1: ApiOutcome, outcome2: ApiOutcome)
    requires s.client.Some?
    ensures var once := StopRecording(s, outcome1);
      var twice := OnMicError(once, outcome2);
      |twice.requests| == |s.requests| + 2 &&
      twice.requests[|s.requests|] == twice.requests[|s.requests| + 1] &&
      twice.requests[|s.requests|].audio == Concat(s.audioBuffer)
  {
  }

  /** Two `toggle-overlay` calls restore the visibility flag, each returning the flag it
      set; the window is shown and hidden once each. */
  lemma ToggleOverlayTwice(s: State)
    ensures ToggleOverlay(s).1 == !s.overlayVisible
    ensures ToggleOverlay(ToggleOverlay(s).0).1 == s.overlayVisible
    ensures ToggleOverlay(ToggleOverlay(s).0).0 ==
      s.(overlay := s.overlay + if s.overlayVisible then [Hide, Show] else [Show, Hide])
  {
  }

  /** When the store holds no hotkey, the settings window is told a different hotkey
      from the one that is registered. */
  lemma HotkeyDefaultsDisagree(s: State)
    requires "hotkey" !in s.store
    ensures GetSettings(s).hotkey != RegisteredHotkey(s)
  {
  }

  /** `after` is `before` with possibly more at the end. */
  predicate Extends<T(==)>(before: seq<T>, after: seq<T>)
  {
    |before| <= |after| && after[..|before|] == before
  }

  /** What no event does: rewrite history in any log, write or remove any file other
      than the temp file, change the temp directory, or empty the clipboard. */
  ghost predicate Keeps(s: State, r: State)
  {
    r.tempDir == s.tempDir &&
    Extends(s.overlay, r.overlay) && Extends(s.mainLog, r.mainLog) &&
    Extends(s.requests, r.requests) && Extends(s.micCalls, r.micCalls) &&
    r.files - {AudioFilePath(s.tempDir)} == s.files - {AudioFilePath(s.tempDir)} &&
    (r.clipboard == s.clipboard || r.clipboard != "")
  }

  /** A start from a state that is not recording keeps the invariant: the microphone
      was not listening, so this start follows a stop or is the first. */
  lemma StartKeepsValid(s: State)
    requires Valid(s) && !s.recording
    ensures Valid(StartRecording(s))
  {
  }

  /** A stop keeps the invariant: it leaves the microphone stopped, or untouched when
      there is none. */
  lemma StopKeepsValid(s: State, outcome: ApiOutcome)
    requires Valid(s)
    ensures Valid(StopRecording(s, outcome))
  {
  }

  /** A stop keeps the invariant and the history. */
  lemma StopKeeps(s: State, outcome: ApiOutcome)
    requires Valid(s)
    ensures Valid(StopRecording(s, outcome)) && Keeps(s, StopRecording(s, outcome))
  {
  }

  /** The microphone error handler keeps the invariant and the history. */
  lemma MicErrorKeeps(s: State, outcome: ApiOutcome)
    requires Valid(s)
    ensures Valid(OnMicError(s, outcome)) && Keeps(s, OnMicError(s, outcome))
  {
    var noted := s.(mainLog := s.mainLog + [ErrorNotice(RecordingErrorNotice)]);
    StopKeeps(noted, outcome);
    var r := StopRecording(noted, outcome);
    assert r.mainLog[..|s.mainLog|] == r.mainLog[..|noted.mainLog|][..|s.mainLog|];
  }

  /** The overlay and settings handlers keep the invariant and the history, and leave
      the recording, the microphone, the buffer, the files, the clipboard and the
      requests as they were. */
  lemma SettingsKeep(s: State, e: Event)
    requires Valid(s) && (e.OverlayToggled? || e.SettingsSaved? || e.AppInitialized?)
    ensures Valid(Step(s, e)) && Keeps(s, Step(s, e))
    ensures var r := Step(s, e);
      r.recording == s.recording && r.micCalls == s.micCalls && r.audioBuffer == s.audioBuffer &&
      r.files == s.files && r.clipboard == s.clipboard && r.requests == s.requests
  {
  }

  /** Every event keeps the invariant and the history. */
  lemma StepKeeps(s: State, e: Event)
    requires Valid(s)
    ensures Valid(Step(s, e)) && Keeps(s, Step(s, e))
  {
    match e
    case HotkeyPressed(outcome) =>
      if s.recording { StopKeeps(s, outcome); } else { StartKeepsValid(s); }
    case MicFailed(outcome) => MicErrorKeeps(s, outcome);
    case MicData(chunk) =>
    case _ => SettingsKeep(s, e);
  }

  /** Over any sequence of events from a valid state: recording is on exactly while the
      microphone listens, the microphone is never started twice without a stop, every
      log only grows, the temp file is the only file ever written or removed, and the
      clipboard only ever receives a non-empty text. */
  lemma {:induction false} RunKeeps(s: State, events: seq<Event>)
    requires Valid(s)
    ensures Valid(Run(s, events)) && Keeps(s, Run(s, events))
    decreases |events|
  {
    if events != [] {
      var next := Step(s, events[0]);
      StepKeeps(s, events[0]);
      RunKeeps(next, events[1..]);
      var r := Run(next, events[1..]);
      assert r.overlay[..|s.overlay|] == r.overlay[..|next.overlay|][..|s.overlay|];
      assert r.mainLog[..|s.mainLog|] == r.mainLog[..|next.mainLog|][..|s.mainLog|];
      assert r.requests[..|s.requests|] == r.requests[..|next.requests|][..|s.requests|];
      assert r.micCalls[..|s.micCalls|] == r.micCalls[..|next.micCalls|][..|s.micCalls|];
    }
  }

  /** The app starts in a state that satisfies the invariant. */
  lemma InitialValid(tempDir: string, store: map<string, string>, files: map<string, seq<byte>>, clipboard: string)
    ensures Valid(Initial(tempDir, store, files, clipboard))
  {
  }

  /** Events are handled one at a time in arrival order: the last event of a sequence is
      handled in the state the earlier ones leave. */
  lemma {:induction false} RunAppend(s: State, events: seq<Event>, e: Event)
    ensures Run(s, events + [e]) == Step(Run(s, events), e)
    decreases |events|
  {
    if events == [] {
      assert Run(s, [e]) == Run(Step(s, e), []);
    } else {
      assert (events + [e])[1..] == events[1..] + [e];
      RunAppend(Step(s, events[0]), events[1..], e);
    }
  }

  /** The first call on the microphone, if there is one, is a start. */
  predicate StartedFirst(s: State)
  {
    s.micCalls == [] || s.micCalls[0] == MicStart
  }

  /** No event makes anything but a start the first microphone call. */
  lemma StepStartsFirst(s: State, e: Event)
    requires StartedFirst(s)
    ensures StartedFirst(Step(s, e))
  {
  }

  /** Over any sequence of events, the first microphone call stays a start. */
  lemma {:induction false} RunStartsFirst(s: State, events: seq<Event>)
    requires StartedFirst(s)
    ensures StartedFirst(Run(s, events))
    decreases |events|
  {
    if events != [] {
      StepStartsFirst(s, events[0]);
      RunStartsFirst(Step(s, events[0]), events[1..]);
    }
  }

  /** After any events from the app's start, a microphone instance exists exactly when
      a recording has been started, so a stop finds no microphone only when no
      recording ever began. */
  lemma MicOnlyAfterStart(tempDir: string, store: map<string, string>, files: map<string, seq<byte>>,
                          clipboard: string, events: seq<Event>)
    ensures var r := Run(Initial(tempDir, store, files, clipboard), events);
      HasMic(r) <==> MicStart in r.micCalls
  {
    RunStartsFirst(Initial(tempDir, store, files, clipboard), events);
  }
}
