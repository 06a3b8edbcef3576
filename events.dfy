/** What one press of "Analyse Video" makes observable: the remote calls it
    issues, the pauses it takes and the warnings and errors it shows.
    A run is described by the sequence of these events, in order. */
module Events {

  /** The state the remote file service reports for an uploaded file
      (`processed_video.state.name`). */
  datatype FileState = StateUnspecified | Processing | Active | Failed

  /** What reached the `except Exception` handler of the analysis. */
  datatype Cause =
    | UploadException(message: string)   // `upload_file` raised
    | MissingLanguage(language: string)  // KeyError from `language_instructions[language]`
    | NoResponse                         // NameError: `response` unbound after the retries ran out

  /** A message shown to the user with `st.warning` or `st.error`. */
  datatype Notice =
    | EmptyQueryWarning
    | FileTooLargeError
    | UnsupportedFormatError(formats: seq<string>)
    | RetryWarning(attempt: nat)
    | RetriesExhaustedError(attempts: nat, lastError: string)
    | AnalysisError(cause: Cause)
  {
    predicate IsWarning()
    {
      EmptyQueryWarning? || RetryWarning?
    }
  }

  datatype Event =
    | Shown(notice: Notice)
    | UploadCall                                     // `upload_file(video_path)`
    | GetFileCall                                    // `get_file(processed_video.name)`
    | Sleep(seconds: nat)                            // `time.sleep(seconds)`
    | AgentCall(prompt: string, fileState: FileState) // `multimodal_Agent.run(prompt, videos=[...])`

  predicate IsUploadCall(e: Event) { e.UploadCall? }

  predicate IsGetFileCall(e: Event) { e.GetFileCall? }

  predicate IsAgentCall(e: Event) { e.AgentCall? }

  predicate IsSleep(e: Event) { e.Sleep? }

  predicate IsWarning(e: Event) { e.Shown? && e.notice.IsWarning() }

  predicate IsError(e: Event) { e.Shown? && !e.notice.IsWarning() }
}
