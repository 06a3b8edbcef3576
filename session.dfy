/** The state that outlives a script run (`st.session_state`): the history
    of completed analyses and the flag that disables "Analyse Video" while
    one runs; plus the temporary copy of the uploaded video. */
module SessionState {
  import opened Basics
  import opened Events
  import opened Validation
  import opened PromptBuilder
  import opened Polling
  import opened Retry
  import opened Orchestration

  /** One record of `analysis_history`. The timestamp is supplied by the
      caller (the clock is outside the model). */
  datatype HistoryEntry = HistoryEntry(videoName: string, query: string, response: string, timestamp: string)

  class Session {
    var analysisHistory: seq<HistoryEntry>
    var processing: bool
    /** The temporary file holding the uploaded video exists. */
    var tempFilePresent: bool

    /** A fresh session: empty history, not processing, no upload yet. */
    constructor ()
      ensures analysisHistory == [] && !processing && !tempFilePresent
    {
      analysisHistory := [];
      processing := false;
      tempFilePresent := false;
    }

    /** A run with a file in the uploader writes it to a temporary file. */
    method ReceiveUpload()
      modifies this`tempFilePresent
      ensures tempFilePresent
    {
      tempFilePresent := true;
    }

    /** "Analyse Video" pressed (it is disabled while `processing`). The
        report is the one `Orchestrate` describes. An empty query stops the
        run before `processing` is set and before the `try`, so nothing
        changes and the temporary file stays. Otherwise the `finally`
        removes the file and clears `processing` on every path: this is the
        corrected cleanup. As written, the cleanup stops with a NameError
        on the size and format rejections and leaves `processing` set (see
        `CleanupAsWritten`). The history grows by exactly one entry when,
        and only when, the analysis produced a response. */
    method Analyse(video: VideoFile, query: string, depth: string, language: string, remote: Remote, timestamp: string)
      returns (outcome: Outcome, trace: seq<Event>)
      requires !processing && tempFilePresent && Answers(remote)
      modifies this
      ensures Report(outcome, trace) == Orchestrate(video, query, depth, language, remote)
      ensures query == "" ==> !processing && tempFilePresent
      ensures query != "" ==> !processing && !tempFilePresent
      ensures outcome.Analysed? ==>
        analysisHistory == old(analysisHistory) + [HistoryEntry(video.name, query, outcome.content, timestamp)]
      ensures !outcome.Analysed? ==> analysisHistory == old(analysisHistory)
    {
      if query == "" {
        outcome, trace := Rejected(EmptyQuery), [Shown(EmptyQueryWarning)];
        return;
      }
      processing := true;
      outcome, trace := Attempt(video, query, depth, language, remote, timestamp);
      // finally, corrected: the flag is cleared whether or not the placeholder exists
      tempFilePresent := false;
      processing := false;
    }

    /** The body of the `try`: the size and format checks, upload, polling,
        prompt, model call with retries, and the history append. */
    method Attempt(video: VideoFile, query: string, depth: string, language: string, remote: Remote, timestamp: string)
      returns (outcome: Outcome, trace: seq<Event>)
      requires processing && query != "" && Answers(remote)
      modifies this`analysisHistory
      ensures Report(outcome, trace) == Orchestrate(video, query, depth, language, remote)
      ensures outcome.Analysed? ==>
        analysisHistory == old(analysisHistory) + [HistoryEntry(video.name, query, outcome.content, timestamp)]
      ensures !outcome.Analysed? ==> analysisHistory == old(analysisHistory)
    {
      if video.size > MaxFileBytes {
        assert Validate(query, video.size, video.name) == Some(TooLarge);
        outcome, trace := Rejected(TooLarge), [Shown(FileTooLargeError)];
        return;
      }
      if !FormatSupported(video.name) {
        assert Validate(query, video.size, video.name) == Some(UnsupportedFormat);
        outcome, trace := Rejected(UnsupportedFormat), [Shown(UnsupportedFormatError(SupportedFormats))];
        return;
      }
      assert Validate(query, video.size, video.name) == None;
      match remote.upload
      case UploadRaised(message) =>
        outcome := Aborted(UploadException(message));
        trace := [UploadCall, Shown(AnalysisError(outcome.cause))];
      case Uploaded(state) =>
        outcome, trace := Process(state, remote, video.name, query, depth, language, timestamp);
        assert Orchestrate(video, query, depth, language, remote) == AfterUpload(state, remote, BuildPrompt(depth, language, query));
    }

    /** From the upload on: poll while the file is PROCESSING, build the
        prompt, ask the model. */
    method Process(state: FileState, remote: Remote, videoName: string, query: string, depth: string, language: string, timestamp: string)
      returns (outcome: Outcome, trace: seq<Event>)
      requires processing && Answers(remote) && remote.upload == Uploaded(state)
      modifies this`analysisHistory
      ensures Report(outcome, trace) == AfterUpload(state, remote, BuildPrompt(depth, language, query))
      ensures outcome.Analysed? ==>
        analysisHistory == old(analysisHistory) + [HistoryEntry(videoName, query, outcome.content, timestamp)]
      ensures !outcome.Analysed? ==> analysisHistory == old(analysisHistory)
    {
      var last, fetches, polls := WaitWhileProcessing(state, remote.laterStates);
      var rest;
      outcome, rest := Respond(BuildPrompt(depth, language, query), last, remote.agent, videoName, query, timestamp);
      trace := [UploadCall] + polls + rest;
    }

    /** After polling: the model call with retries, and the history append
        when a response came back. */
    method Respond(built: Result<string, string>, last: FileState, agent: seq<CallOutcome>, videoName: string, query: string, timestamp: string)
      returns (outcome: Outcome, trace: seq<Event>)
      requires processing && |agent| >= MaxRetries
      modifies this`analysisHistory
      ensures Report(outcome, trace) == AfterPolling(built, last, agent)
      ensures outcome.Analysed? ==>
        analysisHistory == old(analysisHistory) + [HistoryEntry(videoName, query, outcome.content, timestamp)]
      ensures !outcome.Analysed? ==> analysisHistory == old(analysisHistory)
    {
      if built.Failure? {
        outcome := Aborted(MissingLanguage(built.error));
        trace := [Shown(AnalysisError(outcome.cause))];
        return;
      }
      var response, attempts, calls := RunAgent(built.value, last, agent);
      if response.None? {
        // the retries ran out: `response.content` raises NameError
        outcome := Aborted(NoResponse);
        trace := calls + [Shown(AnalysisError(NoResponse))];
        return;
      }
      analysisHistory := analysisHistory + [HistoryEntry(videoName, query, response.value, timestamp)];
      outcome := Analysed(response.value);
      trace := calls;
    }
  }

  /** The state the `finally` block leaves: whether the temporary file
      still exists, the `processing` flag, and whether the block itself
      raised. */
  datatype Cleanup = Cleanup(tempFilePresent: bool, processing: bool, nameError: bool)

  /** `spinner_placeholder` is assigned after the size and format checks, so
      it is unbound when one of them stopped the run. */
  function PlaceholderBound(outcome: Outcome): (bound: bool)
  {
    !outcome.Rejected?
  }

  /** The `finally` block as written, statement by statement: the file is
      unlinked; `spinner_placeholder.empty()` raises NameError when the
      placeholder is unbound, which skips the rest of the block; only then
      is `processing` cleared. */
  function CleanupAsWritten(processing: bool, placeholderBound: bool): (c: Cleanup)
  {
    var tempFilePresent := false;
    if !placeholderBound then Cleanup(tempFilePresent, processing, true)
    else Cleanup(tempFilePresent, false, false)
  }

  /** As written, a request with a query that fails the size or the format
      check leaves `processing` set (the `finally` raises NameError first),
      and every other such request clears it. A set flag keeps "Analyse
      Video" disabled for the rest of the session. */
  lemma AsWrittenCleanupLocksButton(video: VideoFile, query: string, depth: string, language: string, remote: Remote)
    requires Answers(remote) && query != ""
    ensures var c := CleanupAsWritten(true, PlaceholderBound(Orchestrate(video, query, depth, language, remote).outcome));
      && !c.tempFilePresent
      && (c.processing <==> video.size > MaxFileBytes || !FormatSupported(video.name))
      && (c.nameError <==> c.processing)
  {
    RejectedBeforeUpload(video, query, depth, language, remote);
  }

  /** The smallest witness: a 200 MB + 1 byte ".mp4" file. */
  lemma OversizedClipLocksButton(remote: Remote)
    requires Answers(remote)
    ensures var r := Orchestrate(VideoFile("clip.mp4", MaxFileBytes + 1), "Summarise", "Quick", "English", remote);
      && r.outcome == Rejected(TooLarge)
      && CleanupAsWritten(true, PlaceholderBound(r.outcome)).processing
  {
  }
}
