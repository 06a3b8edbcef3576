/** The bounded retry around the model call: at most three calls, stopping
    at the first that returns; a warning and a two-second pause after each
    of the first two failures, an error after the third. */
module Retry {
  import opened Basics
  import opened Events

  const MaxRetries: nat := 3

  /** What one `multimodal_Agent.run` call does: return a response with
      its content, or raise. */
  datatype CallOutcome = Returned(content: string) | Raised(message: string)

  /** The index of the first returning call among the first `bound`
      outcomes, or `bound` when all of them raise. */
  function FirstSuccess(outcomes: seq<CallOutcome>, bound: nat): (k: nat)
    requires bound <= |outcomes|
    ensures k <= bound
    ensures forall j :: 0 <= j < k ==> outcomes[j].Raised?
    ensures k < bound ==> outcomes[k].Returned?
  {
    if bound == 0 || outcomes[0].Returned? then 0
    else 1 + FirstSuccess(outcomes[1..], bound - 1)
  }

  /** The events of `n` failed attempts that are followed by another. */
  function RetryRounds(prompt: string, file: FileState, n: nat): (trace: seq<Event>)
  {
    if n == 0 then []
    else RetryRounds(prompt, file, n - 1) + RetryStep(prompt, file, n)
  }

  /** The events of the whole retry loop: the failed attempts before the
      first success, then that success; or two retried failures and a
      third failure that shows the error with its message. */
  function RetryTrace(prompt: string, file: FileState, outcomes: seq<CallOutcome>): (trace: seq<Event>)
    requires |outcomes| >= MaxRetries
  {
    var k := FirstSuccess(outcomes, MaxRetries);
    if k < MaxRetries then RetryRounds(prompt, file, k) + [AgentCall(prompt, file)]
    else RetryRounds(prompt, file, MaxRetries - 1)
         + [AgentCall(prompt, file), Shown(RetriesExhaustedError(MaxRetries, outcomes[MaxRetries - 1].message))]
  }

  /** A failed attempt followed by another: the call, the warning, the pause. */
  function RetryStep(prompt: string, file: FileState, attempt: nat): (step: seq<Event>)
  {
    [AgentCall(prompt, file), Shown(RetryWarning(attempt)), Sleep(2)]
  }

  lemma StepCount(prompt: string, file: FileState, attempt: nat, s: seq<Event>, p: Event -> bool)
    ensures CountIf(s + RetryStep(prompt, file, attempt), p)
         == CountIf(s, p) + CountIf(RetryStep(prompt, file, attempt), p)
    ensures CountIf(RetryStep(prompt, file, attempt), p)
         == (if p(AgentCall(prompt, file)) then 1 else 0)
          + (if p(Shown(RetryWarning(attempt))) then 1 else 0)
          + (if p(Sleep(2)) then 1 else 0)
  {
    CountIfConcat(s, RetryStep(prompt, file, attempt), p);
    CountIfOfThree(AgentCall(prompt, file), Shown(RetryWarning(attempt)), Sleep(2), p);
  }

  /** In the retried failures, calls, warnings and pauses come one each per
      attempt, and nothing else happens. */
  lemma {:induction false} RetryRoundsCounts(prompt: string, file: FileState, n: nat)
    ensures CountIf(RetryRounds(prompt, file, n), IsAgentCall) == n
    ensures CountIf(RetryRounds(prompt, file, n), IsWarning) == n
    ensures CountIf(RetryRounds(prompt, file, n), IsSleep) == n
    ensures CountIf(RetryRounds(prompt, file, n), IsError) == 0
    ensures CountIf(RetryRounds(prompt, file, n), IsUploadCall) == 0
    ensures CountIf(RetryRounds(prompt, file, n), IsGetFileCall) == 0
  {
    if n > 0 {
      var before := RetryRounds(prompt, file, n - 1);
      RetryRoundsCounts(prompt, file, n - 1);
      StepCount(prompt, file, n, before, IsAgentCall);
      StepCount(prompt, file, n, before, IsWarning);
      StepCount(prompt, file, n, before, IsSleep);
      StepCount(prompt, file, n, before, IsError);
      StepCount(prompt, file, n, before, IsUploadCall);
      StepCount(prompt, file, n, before, IsGetFileCall);
    }
  }

  /** The number of calls the loop makes. */
  function Attempts(outcomes: seq<CallOutcome>): (n: nat)
    requires |outcomes| >= MaxRetries
    ensures 1 <= n <= MaxRetries
  {
    var k := FirstSuccess(outcomes, MaxRetries);
    if k < MaxRetries then k + 1 else MaxRetries
  }

  /** Counting the events of the loop: one call per attempt, a warning and a
      pause for every failure but the third, and one error exactly when
      all three calls fail. */
  lemma RetryTraceCounts(prompt: string, file: FileState, outcomes: seq<CallOutcome>)
    requires |outcomes| >= MaxRetries
    ensures CountIf(RetryTrace(prompt, file, outcomes), IsAgentCall) == Attempts(outcomes)
    ensures CountIf(RetryTrace(prompt, file, outcomes), IsWarning) == Attempts(outcomes) - 1
    ensures CountIf(RetryTrace(prompt, file, outcomes), IsSleep) == Attempts(outcomes) - 1
    ensures CountIf(RetryTrace(prompt, file, outcomes), IsError)
         == (if FirstSuccess(outcomes, MaxRetries) < MaxRetries then 0 else 1)
    ensures CountIf(RetryTrace(prompt, file, outcomes), IsUploadCall) == 0
    ensures CountIf(RetryTrace(prompt, file, outcomes), IsGetFileCall) == 0
  {
    var k := FirstSuccess(outcomes, MaxRetries);
    if k < MaxRetries {
      SucceededTraceCounts(prompt, file, k);
    } else {
      ExhaustedTraceCounts(prompt, file, outcomes[MaxRetries - 1].message);
    }
  }

  /** Failed attempts followed by one that returns. */
  lemma SucceededTraceCounts(prompt: string, file: FileState, k: nat)
    ensures var t := RetryRounds(prompt, file, k) + [AgentCall(prompt, file)];
      && CountIf(t, IsAgentCall) == k + 1
      && CountIf(t, IsWarning) == k && CountIf(t, IsSleep) == k
      && CountIf(t, IsError) == 0 && CountIf(t, IsUploadCall) == 0 && CountIf(t, IsGetFileCall) == 0
  {
    var before, last := RetryRounds(prompt, file, k), [AgentCall(prompt, file)];
    RetryRoundsCounts(prompt, file, k);
    CountIfConcat(before, last, IsAgentCall);
    CountIfConcat(before, last, IsWarning);
    CountIfConcat(before, last, IsSleep);
    CountIfConcat(before, last, IsError);
    CountIfConcat(before, last, IsUploadCall);
    CountIfConcat(before, last, IsGetFileCall);
  }

  /** Two retried failures, then a third failure and its error. */
  lemma ExhaustedTraceCounts(prompt: string, file: FileState, message: string)
    ensures var t := RetryRounds(prompt, file, MaxRetries - 1)
                     + [AgentCall(prompt, file), Shown(RetriesExhaustedError(MaxRetries, message))];
      && CountIf(t, IsAgentCall) == MaxRetries
      && CountIf(t, IsWarning) == MaxRetries - 1 && CountIf(t, IsSleep) == MaxRetries - 1
      && CountIf(t, IsError) == 1 && CountIf(t, IsUploadCall) == 0 && CountIf(t, IsGetFileCall) == 0
  {
    var before := RetryRounds(prompt, file, MaxRetries - 1);
    var call, failure := AgentCall(prompt, file), Shown(RetriesExhaustedError(MaxRetries, message));
    RetryRoundsCounts(prompt, file, MaxRetries - 1);
    CountIfConcat(before, [call, failure], IsAgentCall);
    CountIfOfTwo(call, failure, IsAgentCall);
    CountIfConcat(before, [call, failure], IsWarning);
    CountIfOfTwo(call, failure, IsWarning);
    CountIfConcat(before, [call, failure], IsSleep);
    CountIfOfTwo(call, failure, IsSleep);
    CountIfConcat(before, [call, failure], IsError);
    CountIfOfTwo(call, failure, IsError);
    CountIfConcat(before, [call, failure], IsUploadCall);
    CountIfOfTwo(call, failure, IsUploadCall);
    CountIfConcat(before, [call, failure], IsGetFileCall);
    CountIfOfTwo(call, failure, IsGetFileCall);
  }

  /** The retry loop. `outcomes[i]` is what the (i+1)-th call does; the
      response is the content of the first call that returns, if one of the
      first three does. */
  method RunAgent(prompt: string, file: FileState, outcomes: seq<CallOutcome>)
    returns (response: Option<string>, attempts: nat, trace: seq<Event>)
    requires |outcomes| >= MaxRetries
    ensures attempts == Attempts(outcomes)
    ensures response == (if FirstSuccess(outcomes, MaxRetries) < MaxRetries
                         then Some(outcomes[FirstSuccess(outcomes, MaxRetries)].content) else None)
    ensures trace == RetryTrace(prompt, file, outcomes)
  {
    var retryCount := 0;
    response, attempts, trace := None, 0, [];
    ghost var k := FirstSuccess(outcomes, MaxRetries);
    while retryCount < MaxRetries
      invariant response == None
      invariant retryCount <= k && retryCount <= MaxRetries
      invariant attempts == retryCount
      invariant retryCount < MaxRetries ==> trace == RetryRounds(prompt, file, retryCount)
      invariant retryCount == MaxRetries ==> trace == RetryTrace(prompt, file, outcomes)
    {
      var outcome := outcomes[attempts];
      trace := trace + [AgentCall(prompt, file)];
      attempts := attempts + 1;
      if outcome.Returned? {
        response := Some(outcome.content);
        break;
      }
      retryCount := retryCount + 1;
      if retryCount == MaxRetries {
        trace := trace + [Shown(RetriesExhaustedError(MaxRetries, outcome.message))];
      } else {
        trace := trace + [Shown(RetryWarning(retryCount)), Sleep(2)];
      }
    }
  }
}
