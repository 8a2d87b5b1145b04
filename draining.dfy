/** `wait_for_active_runs` (app.py:94-125): a bounded poll over the thread's
    runs before new work is started. The clock and the remote run listing are
    replaced by traces: `elapsed[i]` is the elapsed time read at the start of
    iteration `i`, and `polls[i]` the statuses `runs.list` returns in that
    iteration. Every caller leaves `max_wait_seconds` at its default of 60;
    the model takes the ceiling as a parameter. */
module Draining {
  import opened Messages

  predicate IsWaitable(s: RunStatus) {
    s == Queued || s == InProgress
  }

  /** `active_runs` is not empty. */
  predicate AnyWaitable(runs: seq<RunStatus>) {
    exists i :: 0 <= i < |runs| && IsWaitable(runs[i])
  }

  /** `requires_action_runs` is not empty. */
  predicate AnyRequiresAction(runs: seq<RunStatus>) {
    exists i :: 0 <= i < |runs| && runs[i] == RequiresAction
  }

  /** A listing after which the loop returns True: a run requires action, or
      nothing is queued, in progress or requiring action. */
  predicate MayProceed(runs: seq<RunStatus>) {
    AnyRequiresAction(runs) || !AnyWaitable(runs)
  }

  /** The clock passes the ceiling somewhere in the trace; a real clock does,
      since every waiting iteration sleeps one second. */
  predicate EventuallyPasses(elapsed: seq<real>, maxWaitSeconds: int) {
    exists k :: 0 <= k < |elapsed| && elapsed[k] > maxWaitSeconds as real
  }

  /** The loop. It returns False only once the elapsed time read before a
      listing exceeds the ceiling, True at the first listing that lets the
      caller proceed, and every listing it makes is made within the ceiling. */
  method WaitForActiveRuns(elapsed: seq<real>, polls: seq<seq<RunStatus>>, maxWaitSeconds: int)
    returns (proceed: bool, iterations: nat)
    requires |polls| == |elapsed|
    requires EventuallyPasses(elapsed, maxWaitSeconds)
    ensures iterations < |elapsed|
    ensures forall j :: 0 <= j < iterations ==>
              elapsed[j] <= maxWaitSeconds as real && !MayProceed(polls[j])
    ensures !proceed <==> elapsed[iterations] > maxWaitSeconds as real
    ensures proceed ==> MayProceed(polls[iterations])
  {
    var i := 0;
    while true
      invariant 0 <= i < |elapsed|
      invariant exists k :: i <= k < |elapsed| && elapsed[k] > maxWaitSeconds as real
      invariant forall j :: 0 <= j < i ==> elapsed[j] <= maxWaitSeconds as real && !MayProceed(polls[j])
      decreases |elapsed| - i
    {
      if elapsed[i] > maxWaitSeconds as real {
        return false, i;
      }
      var runs := polls[i];
      var waitable := AnyWaitable(runs);
      var requiresAction := AnyRequiresAction(runs);
      if !waitable && !requiresAction {
        return true, i;
      }
      if requiresAction {
        return true, i;
      }
      i := i + 1;
    }
  }

  /** The outcome the loop's contract allows is unique: the traces determine
      whether and when it returns. */
  lemma DrainOutcomeIsUnique(elapsed: seq<real>, polls: seq<seq<RunStatus>>, maxWaitSeconds: int,
                             p1: bool, n1: nat, p2: bool, n2: nat)
    requires n1 < |elapsed| && n2 < |elapsed| && |polls| == |elapsed|
    requires forall j :: 0 <= j < n1 ==> elapsed[j] <= maxWaitSeconds as real && !MayProceed(polls[j])
    requires forall j :: 0 <= j < n2 ==> elapsed[j] <= maxWaitSeconds as real && !MayProceed(polls[j])
    requires !p1 <==> elapsed[n1] > maxWaitSeconds as real
    requires !p2 <==> elapsed[n2] > maxWaitSeconds as real
    requires p1 ==> MayProceed(polls[n1])
    requires p2 ==> MayProceed(polls[n2])
    ensures p1 == p2 && n1 == n2
  {
  }

  /** A run requiring action lets the caller proceed even while other runs
      are still queued or in progress. */
  lemma RequiresActionWins(runs: seq<RunStatus>)
    requires AnyRequiresAction(runs)
    ensures MayProceed(runs)
  {
  }

  /** A listing with a queued or in-progress run and none requiring action
      keeps the loop waiting. */
  lemma QueuedKeepsWaiting(waiting: RunStatus, others: seq<RunStatus>)
    requires IsWaitable(waiting)
    requires forall i :: 0 <= i < |others| ==> others[i] != RequiresAction
    ensures !MayProceed([waiting] + others)
  {
    var runs := [waiting] + others;
    assert runs[0] == waiting;
    forall i | 0 <= i < |runs| ensures runs[i] != RequiresAction {
      if i > 0 {
        assert runs[i] == others[i - 1];
      }
    }
  }
}
