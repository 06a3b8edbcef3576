/** Waiting for the remote service to finish processing an uploaded video:
    while the file reports PROCESSING, pause one second and fetch it again. */
module Polling {
  import opened Basics
  import opened Events

  /** The number of PROCESSING states at the front of `states`. */
  function LeadingProcessing(states: seq<FileState>): (n: nat)
    ensures n <= |states|
    ensures forall j :: 0 <= j < n ==> states[j] == Processing
    ensures n < |states| ==> states[n] != Processing
  {
    if states == [] || states[0] != Processing then 0
    else 1 + LeadingProcessing(states[1..])
  }

  /** The states the upload result and the successive `get_file` calls
      report leave PROCESSING at some point: without that the loop never
      ends. */
  predicate Settles(first: FileState, later: seq<FileState>)
  {
    LeadingProcessing([first] + later) <= |later|
  }

  /** What one pass of the loop does: a one-second pause, then a fetch. */
  function PollRounds(n: nat): (trace: seq<Event>)
  {
    if n == 0 then [] else PollRounds(n - 1) + [Sleep(1), GetFileCall]
  }

  lemma {:induction false} PollRoundsCounts(n: nat)
    ensures |PollRounds(n)| == 2 * n
    ensures CountIf(PollRounds(n), IsGetFileCall) == n
    ensures CountIf(PollRounds(n), IsSleep) == n
    ensures forall i :: 0 <= i < |PollRounds(n)| ==> PollRounds(n)[i] in {Sleep(1), GetFileCall}
  {
    if n > 0 {
      PollRoundsCounts(n - 1);
      CountIfConcat(PollRounds(n - 1), [Sleep(1), GetFileCall], IsGetFileCall);
      CountIfConcat(PollRounds(n - 1), [Sleep(1), GetFileCall], IsSleep);
    }
  }

  /** The polling loop. `first` is the state of the upload result and
      `later[i]` the state the (i+1)-th `get_file` call returns. The loop
      fetches exactly as often as PROCESSING is reported from the upload
      result on, and ends on the first other state, FAILED included. */
  method WaitWhileProcessing(first: FileState, later: seq<FileState>)
    returns (last: FileState, fetches: nat, trace: seq<Event>)
    requires Settles(first, later)
    ensures fetches == LeadingProcessing([first] + later)
    ensures last == ([first] + later)[fetches] && last != Processing
    ensures trace == PollRounds(fetches)
  {
    ghost var states := [first] + later;
    last, fetches, trace := first, 0, [];
    while last == Processing
      invariant fetches <= LeadingProcessing(states)
      invariant last == states[fetches]
      invariant trace == PollRounds(fetches)
      decreases |later| - fetches
    {
      trace := trace + [Sleep(1), GetFileCall];
      last := later[fetches];
      fetches := fetches + 1;
    }
  }
}
