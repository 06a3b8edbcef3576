# AI Video Summarizer: a verified model of the analysis flow

The application is a Streamlit page. The user uploads a video, picks a query (or a query template), an analysis depth and a response language, and presses "Analyse Video". The page then does the following:

1. It checks the request: a non-empty query, at most 200 MB, and an `mp4`, `mov` or `avi` extension.
2. It uploads the video to the remote file service and polls the service while the file is PROCESSING.
3. It builds an instruction prompt from the depth, the language and the query.
4. It asks the multimodal model, with at most three calls.
5. It records a successful answer in the session's history.
6. Its `finally` block deletes the temporary copy of the video and is meant to clear the session's `processing` flag. That flag keeps the button disabled while an analysis runs. As written, the block clears the flag only when the run got past the size and format checks (see "## Findings"). The model's `Session.Analyse` is the corrected cleanup, which clears it on every path.

This project models that flow in Dafny and proves properties of the model. All cited code is in `app.py`.

Modules, one per file:

- `Basics`: `Option`, `Result`, contiguous containment (`Contains`, Python's `t in s`) and counting (`CountIf`).
- `Events`: the observable effects of a run. These are remote calls, pauses, and the warnings and errors shown, as structured values rather than formatted text. A run is the sequence of its events.
- `Validation`: the three checks, in the order the code runs them. The extension is modelled as `name.split('.')[-1].lower()`.
- `PromptBuilder`: `language_instructions`, `get_analysis_points`, the depth sentence and the prompt template.
- `QueryTemplates`: the template table and the value the query field starts with.
- `Polling`: the `while processed_video.state.name == "PROCESSING"` loop, as a method with loop invariants.
- `Retry`: the `while retry_count < max_retries` loop, as a method with loop invariants.
- `Orchestration`: the whole press of the button as a pure function, `Orchestrate`. It maps the request and the answers of the remote services to an outcome and an event trace.
- `SessionState`: `st.session_state` as a class with fields `analysisHistory` and `processing`, plus whether the temporary file exists. `Session.Analyse` runs the flow step by step, calling the two loop methods. It is proved to produce exactly the report `Orchestrate` describes, and its contract also states the new session state.

The remote services are oracles, given as a `Remote` value:

- what `upload_file` does: returns a file in some state, or raises;
- the states the successive `get_file` calls report;
- what each successive `multimodal_Agent.run` call does: returns content, or raises.

The clock is outside the model: the history timestamp is a parameter. Sleeping appears only as `Sleep(seconds)` events.

The model follows the code as written, also where it departs from what a careful design of this flow would do:

- Polling has no time or attempt bound. A FAILED file ends polling like any other non-PROCESSING state and is still sent to the model; no processing error is raised.
- The upload result is the first state observed. A file reported PROCESSING N times in total, the upload result included, is fetched N times.
- A depth outside the slider's values is treated as "Detailed"; no configuration error is raised.
- A language missing from `language_instructions` raises a KeyError. That happens after the upload and the polling, inside the generic `except`, so the generic error is shown.
- An empty query stops the run before the `try`. The temporary file is not deleted on that path.
- After three failed model calls, `response` is unbound. `st.markdown(response.content)` then raises a NameError, which the generic `except` reports after the "Failed after 3 attempts" error.
- No exit path checks the credential.
- A size or format rejection stops the run before `spinner_placeholder` is assigned. The `finally` block then raises a NameError before it clears `processing`, so the flag stays set. That as-written cleanup is `SessionState.CleanupAsWritten`. `SessionState.Session.Analyse` models the cleanup as evidently intended (see "## Findings").

## Model

| member | source | states |
|---|---|---|
| Validation.Extension | app.py:220 | the extension is the longest suffix of the name without a '.': either the whole name or the text after its last '.' |
| Validation.ExtensionUnique | app.py:220 | those three properties determine the extension |
| Validation.ExtensionOfDotted | app.py:220 | for `stem + "." + ending` with a dot-free ending, the extension is that ending |
| Validation.ExtensionOfDotless | app.py:220 | a name without '.' is its own extension |
| Validation.Lower | app.py:220 | lower-casing keeps the length and maps each character through its ASCII lower-case form |
| Validation.LowerIdempotent | app.py:220 | lower-casing twice is the same as lower-casing once |
| Validation.ExtensionOfLower | app.py:220 | taking the extension and lower-casing commute |
| Validation.FormatCheckIgnoresCase | app.py:219-221 | the format check gives the same verdict for a name and its lower-cased form |
| Validation.FormatOfDottedName | app.py:219-221 | for a dotted name, only the lower-cased text after the last '.' decides the format check |
| Validation.FormatOfDotlessName | app.py:219-221 | a name without '.' is judged as a whole, so `MP4` passes |
| Validation.UpperCaseEndingPasses | app.py:219-221 | `clip.MP4` passes the format check |
| Validation.LastEndingDecides | app.py:219-221 | only the last ending counts: a stem and a '.' before a dot-free ending leave its verdict unchanged |
| Validation.OtherEndingFails | app.py:219-223 | `clip.mkv` is rejected |
| Validation.TrailingDotFails | app.py:219-223 | `clip.mp4.` is rejected: its extension is empty |
| Validation.DotlessNamePasses | app.py:219-221 | `Mov` passes |
| Validation.FormatSupported | app.py:219-221 | the format check: the lower-cased extension is one of `mp4`, `mov`, `avi` (its properties are the `Format…` lemmas below) |
| Validation.Validate | app.py:207-223 | a request passes exactly when the query is non-empty, the size is at most 200 MB and the format check passes; an empty query is reported first, then an oversize file, then an unsupported format, each exactly when the earlier checks pass and it fails |
| Validation.SizeLimitBoundary | app.py:214 | the limit is 209715200 bytes and inclusive: that size passes, one byte more is TooLarge |
| PromptBuilder.InstructionTableCoversOptions | app.py:244-250 | the instruction table has a sentence for exactly the five languages the box at app.py:127-130 offers |
| PromptBuilder.AnalysisPoints | app.py:252-265 | Quick asks for one bullet, Standard for three, any other depth for six; the first is always the content summary |
| PromptBuilder.DeeperAsksMore | app.py:252-265 | each step up the depth slider (app.py:122-126, in its order) asks for more bullets |
| PromptBuilder.DepthDescription | app.py:271-276 | the depth sentence: Quick's for "Quick", Standard's for "Standard", Detailed's for anything else (see `UnknownDepthIsDetailed`, `PromptContents`) |
| PromptBuilder.UnknownDepthIsDetailed | app.py:259-276 | a depth that is neither Quick nor Standard gets the Detailed bullets and the Detailed sentence |
| PromptBuilder.QuickBulletOpensEveryList | app.py:252-265 | the Quick list is a prefix of every depth's list |
| PromptBuilder.BulletList | app.py:252-265 | the points as lines each introduced by "- " (see `BulletListHasEveryPoint`) |
| PromptBuilder.BulletListHasEveryPoint | app.py:252-265 | the bullet text contains "- " followed by each point |
| PromptBuilder.BuildPrompt | app.py:244-287 | building fails exactly when the language has no instruction, and the failure names that language (the KeyError) |
| PromptBuilder.PromptContents | app.py:267-287 | a built prompt contains the depth line, the depth sentence, the language's instruction, "Query: " with the query, the structure line with the language, every bullet of the depth, and "MUST be in" with the language |
| PromptBuilder.OfferedLanguagesBuild | app.py:244-278 | every language the box at app.py:127-130 offers is a key of the table, so the lookup at app.py:278 succeeds and a prompt is built |
| PromptBuilder.PromptDeterminesQuery | app.py:280 | with depth and language fixed, different queries give different prompts |
| QueryTemplates.DefaultQuery | app.py:183-204 | "Custom" starts the field empty; a template name starts it with that template's query; any other name has no value (the KeyError) |
| QueryTemplates.OfferedChoicesFillQuery | app.py:190-204 | every offered choice yields a value, and the field starts empty only for "Custom" |
| QueryTemplates.TemplateNamesMatchTable | app.py:183-193 | the box lists "Custom" and then each template of the table, once each |
| Polling.LeadingProcessing | app.py:236 | counts the PROCESSING states at the front of the sequence: all before the count are PROCESSING, the one at the count is not |
| Polling.PollRounds | app.py:236-239 | the events of n passes of the loop: one-second pause, then fetch (see `PollRoundsCounts`, `WaitWhileProcessing`) |
| Polling.PollRoundsCounts | app.py:236-239 | n poll rounds hold n one-second pauses and n fetches and nothing else |
| Polling.WaitWhileProcessing | app.py:236-240 | the loop fetches exactly once per leading PROCESSING state, ends on the first other state (FAILED included), and its events are that many pause-then-fetch rounds |
| Retry.FirstSuccess | app.py:293-296 | the index of the first returning call among the first three, or 3: all earlier calls raised |
| Retry.RetryRounds | app.py:297-303 | the events of n failed attempts that are followed by another: call, warning with the attempt number, two-second pause (see `RetryRoundsCounts`) |
| Retry.RetryRoundsCounts | app.py:297-303 | n retried failures hold n calls, n warnings and n pauses, and no error, upload or fetch |
| Retry.Attempts | app.py:290-303 | the loop makes between 1 and 3 calls |
| Retry.RetryTrace | app.py:290-303 | the closed form of the loop's events: the failed attempts before the first returning call and that call, or two retried failures and a third failure with its error (see `RetryTraceCounts`, `RunAgent`) |
| Retry.RetryTraceCounts | app.py:290-303 | the loop makes one call per attempt, shows a warning and pauses after every failure but the third, and shows one error exactly when all three calls fail |
| Retry.RunAgent | app.py:290-303 | the response is the content of the first returning call when one of the first three returns, and absent otherwise; the attempts and the events are those of the loop |
| Orchestration.Orchestrate | app.py:206-309 | one press of the button as a function of the request and the remote answers: validation, upload, polling, prompt, retried model call, and the errors shown (see the lemmas below and `Session.Analyse`) |
| Orchestration.AfterUpload | app.py:229-309 | the events from the upload on: the upload, the polling rounds, then what follows polling |
| Orchestration.AfterPolling | app.py:243-309 | after polling: the KeyError of a missing language, or the retry loop followed by the response or the NameError of the missing response |
| Orchestration.RejectionNotice | app.py:207-223 | the message each rejection shows: the empty-query warning (line 208), the too-large error (line 215), the unsupported-format error listing `mp4`, `mov`, `avi` (line 222) |
| Orchestration.RejectedBeforeUpload | app.py:206-223 | a request is rejected exactly when validation fails; the rejection is the first failing check, its message is the only event, and nothing is uploaded, fetched or asked |
| Orchestration.ValidRequestUploadsOnce | app.py:229-232 | a request that passes validation uploads exactly once, as its first event |
| Orchestration.ContinuationCounts | app.py:232-303 | from the upload on: one upload, one fetch per leading PROCESSING state, and as many model calls as the retry loop makes when a prompt was built |
| Orchestration.AfterPollingCounts | app.py:244-303 | after polling, nothing is uploaded or fetched; the model is called once per attempt when there is a prompt, and never when the language is missing |
| Orchestration.AnalysedExactly | app.py:206-309 | the analysis yields a response exactly when validation passes, the upload returns, the language has an instruction and one of the three calls returns; the response is that call's content |
| Orchestration.FailedFileReachesModel | app.py:236-295 | a file reported FAILED after upload is not fetched again; the next event is the model call with the prompt about that file |
| SessionState.Session.constructor | app.py:149-153 | a new session has an empty history and is not processing |
| SessionState.Session.ReceiveUpload | app.py:155-160 | a run with a file in the uploader writes a temporary file |
| SessionState.Session.Analyse | app.py:206-333 | the report equals `Orchestrate`; an empty query changes nothing and leaves the temporary file; otherwise the file is removed and, in the corrected `finally`, `processing` is cleared on every path (the code leaves it set on the size and format paths, see Findings); the history grows by exactly the entry (name, query, response, timestamp) when the analysis succeeds and is unchanged otherwise |
| SessionState.Session.Attempt | app.py:212-325 | the body of the `try` produces the report of `Orchestrate` and appends to the history only on success |
| SessionState.Session.Process | app.py:229-317 | from the upload on, the report is the one `Orchestration.AfterUpload` gives for the upload's state and the built prompt |
| SessionState.Session.Respond | app.py:289-317 | after polling, the report is the one `Orchestration.AfterPolling` gives, and the history gains one entry exactly when a response came back |
| SessionState.PlaceholderBound | app.py:214-226 | `spinner_placeholder` is bound exactly when the run was not stopped by a rejection, i.e. got past the checks at lines 214-223 to the assignment at line 226 |
| SessionState.CleanupAsWritten | app.py:329-333 | the `finally` block as written, statement by statement: the file is unlinked, `spinner_placeholder.empty()` raises NameError when the placeholder is unbound and skips the rest, otherwise `processing` is cleared |
| SessionState.AsWrittenCleanupLocksButton | app.py:226-333 | as written, a request with a non-empty query always has its temporary file removed, and it leaves `processing` set, with a NameError in `finally`, exactly when it fails the size or format check |
| SessionState.OversizedClipLocksButton | app.py:214-216 | a `clip.mp4` of 200 MB + 1 byte is rejected as too large, and as written `processing` stays set |

## Left out

- The page layout and widgets (CSS, columns, video preview, progress bar values, status box, download button, history viewer, feedback form, keyboard shortcut): presentation only.
- The "Stop Analysis" button: it is created but nothing reads it.
- Network calls (`upload_file`, `get_file`, `multimodal_Agent.run`), the agent's configuration and `load_dotenv`/`genai.configure`: the remote calls are oracles inside `Remote`; credentials are not modelled.
- An exception raised by `get_file`: the oracle gives only states. The generic `except` would report it like an upload exception.
- `time.sleep`, `random.random` and `datetime.now`: pauses are events, the progress value is not modelled, and the timestamp is a parameter.
- Temporary-file I/O: the file's existence is a single flag. Each rerun writing another file is not modelled.
- Polling that never ends: `Orchestration.Answers` requires that the oracle eventually reports a state other than PROCESSING. The source has no bound, so a file stuck in PROCESSING blocks forever.
- The oracle supplies at least three model outcomes, since the loop may ask for three.
- Validation.Lower: lower-cases ASCII letters only. Python's `str.lower` also maps other letters. No non-ASCII character lower-cases into one of `mp4`, `mov` or `avi`, so the verdict of the format check is the same.
- PromptBuilder.BuildPrompt: the prompt is modelled as its stretches of text with single line breaks. The f-string's indentation and the indentation inside the multi-line bullets are left out. The contents lemmas speak of what the prompt contains, which does not depend on that whitespace.
- Messages are structured values (`Events.Notice`): the exact wording and formatting of `st.warning`/`st.error` texts are not modelled. The "Analysis Result" heading and the rendered markdown are not events.
- SessionState.Session.Analyse: clears `processing` on every path, as the `finally` block is evidently meant to. As written, the size and format rejections leave `processing` set; `SessionState.CleanupAsWritten` and its lemmas state that behaviour.
- `if response:` is taken to hold for every returned response object, so the history records every successful call.

## Findings

| source | as written | input that shows it | evidently intended | confidence | as-written member | corrected member |
|---|---|---|---|---|---|---|
| app.py:226-333 | `spinner_placeholder` is assigned only after the size and format checks, and the `finally` block calls `spinner_placeholder.empty()` before `st.session_state.processing = False` | a query with `clip.mp4` of 209715201 bytes (or any name with an unsupported extension): `st.stop()` runs inside the `try`, `finally` raises NameError, and `processing` stays True, so "Analyse Video" stays disabled for the rest of the session | `finally` clears `processing` on every exit path | medium, not executed | SessionState.AsWrittenCleanupLocksButton, SessionState.OversizedClipLocksButton | SessionState.Session.Analyse |
