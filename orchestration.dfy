/** One press of "Analyse Video", as a function of its inputs and of what
    the remote services answer: validation, upload, polling, prompt, the
    retried model call, and what is shown. The session's `Analyse` method
    is proved to behave as this function says. */
module Orchestration {
  import opened Basics
  import opened Events
  import opened Validation
  import opened PromptBuilder
  import opened Polling
  import opened Retry

  /** The uploaded file as the uploader widget reports it. */
  datatype VideoFile = VideoFile(name: string, size: nat)

  /** What `upload_file` does: return the remote file with its state, or raise. */
  datatype UploadOutcome = Uploaded(state: FileState) | UploadRaised(message: string)

  /** Everything the remote services answer during one analysis: the upload,
      the states of the successive `get_file` calls and the outcomes of the
      successive model calls. */
  datatype Remote = Remote(upload: UploadOutcome, laterStates: seq<FileState>, agent: seq<CallOutcome>)

  /** The remote side answers every question the analysis can ask: polling
      ends, and each of the at most three model calls has an outcome. */
  predicate Answers(remote: Remote)
  {
    && (remote.upload.Uploaded? ==> Settles(remote.upload.state, remote.laterStates))
    && |remote.agent| >= MaxRetries
  }

  datatype Outcome = Rejected(reason: Rejection) | Aborted(cause: Cause) | Analysed(content: string)

  datatype Report = Report(outcome: Outcome, trace: seq<Event>)

  /** The message each rejection shows. */
  function RejectionNotice(reason: Rejection): (n: Notice)
  {
    match reason
    case EmptyQuery => EmptyQueryWarning
    case TooLarge => FileTooLargeError
    case UnsupportedFormat => UnsupportedFormatError(SupportedFormats)
  }

  /** What follows polling: the model call with retries when a prompt was
      built, then a report of the missing response or the missing language. */
  function AfterPolling(built: Result<string, string>, state: FileState, agent: seq<CallOutcome>): (r: Report)
    requires |agent| >= MaxRetries
  {
    match built
    case Failure(missing) =>
      Report(Aborted(MissingLanguage(missing)), [Shown(AnalysisError(MissingLanguage(missing)))])
    case Success(prompt) =>
      var calls := RetryTrace(prompt, state, agent);
      var k := FirstSuccess(agent, MaxRetries);
      if k < MaxRetries then Report(Analysed(agent[k].content), calls)
      else Report(Aborted(NoResponse), calls + [Shown(AnalysisError(NoResponse))])
  }

  /** The events from the upload on, for a request that passed validation. */
  function AfterUpload(state: FileState, remote: Remote, built: Result<string, string>): (r: Report)
    requires Answers(remote) && remote.upload == Uploaded(state)
  {
    var states := [state] + remote.laterStates;
    var fetches := LeadingProcessing(states);
    var rest := AfterPolling(built, states[fetches], remote.agent);
    Report(rest.outcome, [UploadCall] + PollRounds(fetches) + rest.trace)
  }

  function Orchestrate(video: VideoFile, query: string, depth: string, language: string, remote: Remote): (r: Report)
    requires Answers(remote)
  {
    match Validate(query, video.size, video.name)
    case Some(reason) => Report(Rejected(reason), [Shown(RejectionNotice(reason))])
    case None =>
      match remote.upload
      case UploadRaised(message) =>
        Report(Aborted(UploadException(message)), [UploadCall, Shown(AnalysisError(UploadException(message)))])
      case Uploaded(state) => AfterUpload(state, remote, BuildPrompt(depth, language, query))
  }

  /** A request is rejected exactly when validation fails; the rejection
      is the first failing check, it is the only message shown, and nothing
      is uploaded, fetched or asked of the model. */
  lemma RejectedBeforeUpload(video: VideoFile, query: string, depth: string, language: string, remote: Remote)
    requires Answers(remote)
    ensures var r := Orchestrate(video, query, depth, language, remote);
      && (r.outcome.Rejected? <==> Validate(query, video.size, video.name).Some?)
      && (r.outcome.Rejected? ==>
            && Validate(query, video.size, video.name) == Some(r.outcome.reason)
            && r.trace == [Shown(RejectionNotice(r.outcome.reason))]
            && CountIf(r.trace, IsUploadCall) == 0
            && CountIf(r.trace, IsGetFileCall) == 0
            && CountIf(r.trace, IsAgentCall) == 0)
  {
    var r := Orchestrate(video, query, depth, language, remote);
    if Validate(query, video.size, video.name).Some? {
      CountIfNone(r.trace, IsUploadCall);
      CountIfNone(r.trace, IsGetFileCall);
      CountIfNone(r.trace, IsAgentCall);
    } else if remote.upload.Uploaded? {
      AfterUploadNotRejected(remote.upload.state, remote, BuildPrompt(depth, language, query));
    }
  }

  lemma AfterUploadNotRejected(state: FileState, remote: Remote, built: Result<string, string>)
    requires Answers(remote) && remote.upload == Uploaded(state)
    ensures !AfterUpload(state, remote, built).outcome.Rejected?
  {
  }

  /** An analysis that passes validation uploads exactly once, as its first
      remote call. */
  lemma ValidRequestUploadsOnce(video: VideoFile, query: string, depth: string, language: string, remote: Remote)
    requires Answers(remote) && Validate(query, video.size, video.name) == None
    ensures var r := Orchestrate(video, query, depth, language, remote);
      |r.trace| >= 1 && r.trace[0] == UploadCall && CountIf(r.trace, IsUploadCall) == 1
  {
    match remote.upload
    case UploadRaised(message) =>
      assert Orchestrate(video, query, depth, language, remote).trace == [UploadCall, Shown(AnalysisError(UploadException(message)))];
      CountIfOfTwo(UploadCall, Shown(AnalysisError(UploadException(message))), IsUploadCall);
    case Uploaded(state) =>
      var built := BuildPrompt(depth, language, query);
      assert Orchestrate(video, query, depth, language, remote) == AfterUpload(state, remote, built);
      ContinuationCounts(state, remote, built);
  }

  /** After polling nothing is uploaded or fetched, and the model is asked
      as often as the retry loop runs, when there is a prompt. */
  lemma AfterPollingCounts(built: Result<string, string>, state: FileState, agent: seq<CallOutcome>)
    requires |agent| >= MaxRetries
    ensures var r := AfterPolling(built, state, agent);
      && CountIf(r.trace, IsUploadCall) == 0
      && CountIf(r.trace, IsGetFileCall) == 0
      && CountIf(r.trace, IsAgentCall) == (if built.Success? then Attempts(agent) else 0)
  {
    var r := AfterPolling(built, state, agent);
    match built
    case Failure(missing) =>
      CountIfNone(r.trace, IsUploadCall);
      CountIfNone(r.trace, IsGetFileCall);
      CountIfNone(r.trace, IsAgentCall);
    case Success(prompt) =>
      var calls := RetryTrace(prompt, state, agent);
      RetryTraceCounts(prompt, state, agent);
      if FirstSuccess(agent, MaxRetries) >= MaxRetries {
        var failure := [Shown(AnalysisError(NoResponse))];
        CountIfConcat(calls, failure, IsUploadCall);
        CountIfConcat(calls, failure, IsGetFileCall);
        CountIfConcat(calls, failure, IsAgentCall);
      }
  }

  /** The upload call and the polling rounds: one upload, one fetch per
      round, no model call. */
  lemma {:induction false} PolledCounts(fetches: nat)
    ensures CountIf([UploadCall] + PollRounds(fetches), IsUploadCall) == 1
    ensures CountIf([UploadCall] + PollRounds(fetches), IsGetFileCall) == fetches
    ensures CountIf([UploadCall] + PollRounds(fetches), IsAgentCall) == 0
  {
    var polls := PollRounds(fetches);
    PollRoundsCounts(fetches);
    CountIfNone(polls, IsUploadCall);
    CountIfNone(polls, IsAgentCall);
    CountIfConcat([UploadCall], polls, IsUploadCall);
    CountIfConcat([UploadCall], polls, IsGetFileCall);
    CountIfConcat([UploadCall], polls, IsAgentCall);
  }

  /** From the upload on: one upload, as many fetches as leading PROCESSING
      states, and as many model calls as the retry loop makes when a prompt
      was built. */
  lemma ContinuationCounts(state: FileState, remote: Remote, built: Result<string, string>)
    requires Answers(remote) && remote.upload == Uploaded(state)
    ensures var r := AfterUpload(state, remote, built);
      && |r.trace| >= 1 && r.trace[0] == UploadCall
      && CountIf(r.trace, IsUploadCall) == 1
      && CountIf(r.trace, IsGetFileCall) == LeadingProcessing([state] + remote.laterStates)
      && CountIf(r.trace, IsAgentCall) == (if built.Success? then Attempts(remote.agent) else 0)
  {
    var states := [state] + remote.laterStates;
    var fetches := LeadingProcessing(states);
    var rest := AfterPolling(built, states[fetches], remote.agent);
    var polled := [UploadCall] + PollRounds(fetches);
    assert AfterUpload(state, remote, built).trace == polled + rest.trace;
    PolledCounts(fetches);
    AfterPollingCounts(built, states[fetches], remote.agent);
    CountIfConcat(polled, rest.trace, IsUploadCall);
    CountIfConcat(polled, rest.trace, IsGetFileCall);
    CountIfConcat(polled, rest.trace, IsAgentCall);
  }

  /** The analysis succeeds exactly when validation passes, the upload
      returns, the language has an instruction and one of the three model
      calls returns; the result is that call's content. */
  lemma AnalysedExactly(video: VideoFile, query: string, depth: string, language: string, remote: Remote)
    requires Answers(remote)
    ensures var r := Orchestrate(video, query, depth, language, remote);
      && (r.outcome.Analysed? <==>
            && Validate(query, video.size, video.name) == None
            && remote.upload.Uploaded?
            && language in LanguageInstructions
            && FirstSuccess(remote.agent, MaxRetries) < MaxRetries)
      && (r.outcome.Analysed? ==> r.outcome.content == remote.agent[FirstSuccess(remote.agent, MaxRetries)].content)
  {
  }

  /** A file the service reports FAILED is not treated differently: polling
      stops, and the model is still asked about it. */
  lemma FailedFileReachesModel(video: VideoFile, query: string, depth: string, language: string, remote: Remote)
    requires Answers(remote) && Validate(query, video.size, video.name) == None
    requires remote.upload == Uploaded(FileState.Failed) && language in LanguageInstructions
    ensures var r := Orchestrate(video, query, depth, language, remote);
      && |r.trace| >= 2 && r.trace[0] == UploadCall
      && r.trace[1] == AgentCall(BuildPrompt(depth, language, query).value, FileState.Failed)
  {
    var built := BuildPrompt(depth, language, query);
    assert Orchestrate(video, query, depth, language, remote) == AfterUpload(FileState.Failed, remote, built);
    FailedUploadStart(remote, built);
  }

  lemma FailedUploadStart(remote: Remote, built: Result<string, string>)
    requires Answers(remote) && remote.upload == Uploaded(FileState.Failed) && built.Success?
    ensures var t := AfterUpload(FileState.Failed, remote, built).trace;
      |t| >= 2 && t[0] == UploadCall && t[1] == AgentCall(built.value, FileState.Failed)
  {
    var states := [FileState.Failed] + remote.laterStates;
    assert LeadingProcessing(states) == 0;
    assert states[0] == FileState.Failed;
    var rest := AfterPolling(built, FileState.Failed, remote.agent);
    AfterPollingStart(built.value, FileState.Failed, remote.agent);
    assert AfterUpload(FileState.Failed, remote, built).trace == [UploadCall] + [] + rest.trace;
  }

  /** Once a prompt exists, the first thing after polling is a model call
      about the file in its final state. */
  lemma AfterPollingStart(prompt: string, state: FileState, agent: seq<CallOutcome>)
    requires |agent| >= MaxRetries
    ensures var r := AfterPolling(Success(prompt), state, agent);
      |r.trace| >= 1 && r.trace[0] == AgentCall(prompt, state)
  {
    var k := FirstSuccess(agent, MaxRetries);
    if k < MaxRetries {
      if k > 0 {
        RetryRoundsStart(prompt, state, k);
      }
    } else {
      RetryRoundsStart(prompt, state, MaxRetries - 1);
    }
  }

  lemma {:induction false} RetryRoundsStart(prompt: string, file: FileState, n: nat)
    requires n > 0
    ensures |RetryRounds(prompt, file, n)| >= 3 && RetryRounds(prompt, file, n)[0] == AgentCall(prompt, file)
  {
    if n > 1 {
      RetryRoundsStart(prompt, file, n - 1);
    }
  }
}
