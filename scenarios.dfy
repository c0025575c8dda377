/**
 The flows of the group test suite `__tests__/flows/group-of-pinky-promises.test.ts`
 replayed on pinky promise objects; the line numbers below are lines of that file. Each
 method builds fresh tasks with the callbacks one test gives them, runs the
 group through Coordinator.All, and promises the outcome and the spy counts
 that test asserts, together with counts the model derives where the test
 asserts none (each method's comment says which).
 */
module Scenarios {
  import opened Task
  import opened Pinky
  import opened Group
  import opened Coordinator

  function AlwaysResolve(k: nat): Attempt<string>
  {
    Resolved("resolve")
  }

  /**
   A check that reads a counter the executor bumps before each run, starting
   at 1, and passes once it reaches 3: false on the first call, true after.
   */
  function PassesFromSecondCheck(k: nat): bool
  {
    k >= 1
  }

  /** The spy counts of `n` tasks that have not run yet. */
  function Untouched(n: nat): seq<Calls>
  {
    seq(n, _ => Calls(0, 0, 0, 0))
  }

  /** Build one fresh pinky promise per configuration, run the group, and report every task's spy counts. */
  method RunFresh(cs: seq<Config<string>>) returns (result: GroupResult<string>, spies: seq<Calls>)
    ensures result == RunGroup(cs, Untouched(|cs|)).0
    ensures spies == RunGroup(cs, Untouched(|cs|)).1
  {
    var tasks: seq<PinkyPromise<string>> := [];
    while |tasks| < |cs|
      invariant |tasks| <= |cs|
      invariant ConfigsOf(tasks) == cs[..|tasks|]
      invariant SpiesOf(tasks) == Untouched(|tasks|)
      invariant Distinct(tasks)
      invariant forall t :: t in tasks ==> fresh(t)
    {
      var p := new PinkyPromise(cs[|tasks|]);
      assert SpiesOf(tasks + [p]) == SpiesOf(tasks) + [p.Spies()];
      tasks := tasks + [p];
    }
    assert cs[..|tasks|] == cs;
    result := All(tasks);
    spies := SpiesOf(tasks);
  }

  /** Lines 17-59: three tasks pass at once; commit, `success` 1+1 times each, no revert. */
  method AllSucceed() returns (result: GroupResult<string>, spies: seq<Calls>)
    ensures result == Committed(["resolve", "resolve", "resolve"])
    ensures |spies| == 3
    ensures forall i :: 0 <= i < 3 ==> spies[i].success == 2 && spies[i].revert == 0
  {
    var cs := [WithDefaults(AlwaysResolve, _ => true, Some(_ => ReturnedFalse)),
               WithDefaults(AlwaysResolve, _ => true, None).(revertOnFailure := false),
               WithDefaults(AlwaysResolve, _ => true, None).(revertOnFailure := false)];
    result, spies := RunFresh(cs);
    CommitAtFirstAttempt(cs, Untouched(3));
  }

  /**
   Lines 61-106: the first task passes after one retry; commit, `success`
   2+1, 1+1, 1+1 times. The single retry is derived, not asserted.
   */
  method SucceedInRetries() returns (result: GroupResult<string>, spies: seq<Calls>)
    ensures result == Committed(["resolve", "resolve", "resolve"])
    ensures |spies| == 3
    ensures spies[0].success == 3 && spies[1].success == 2 && spies[2].success == 2
    ensures spies[0].retry == 1 && spies[0].revert == 0
  {
    var cs := [WithDefaults(AlwaysResolve, PassesFromSecondCheck, Some(_ => ReturnedTrue)),
               WithDefaults(AlwaysResolve, _ => true, None).(revertOnFailure := false),
               WithDefaults(AlwaysResolve, _ => true, None).(revertOnFailure := false)];
    result, spies := RunFresh(cs);
    var zero := Untouched(3);
    SucceedsAfterRetries(cs[0], zero[0], 1);
    SucceedsAfterRetries(cs[1], zero[1], 0);
    SucceedsAfterRetries(cs[2], zero[2], 0);
    CommitIff(cs, zero);
    CommitValuesInOrder(cs, zero);
  }

  /**
   Lines 108-148: the first executor throws, and the group fails with
   PromiseFailedAndReverted, the one thing the test asserts. The revert counts
   are derived, not asserted: every task is reverted once, the one whose
   executor threw included.
   */
  method ExecutorThrows() returns (result: GroupResult<string>, spies: seq<Calls>)
    ensures result == Aborted(PromiseFailedAndReverted)
    ensures |spies| == 3
    ensures forall i :: 0 <= i < 3 ==> spies[i].revert == 1
  {
    var cs := [WithDefaults(_ => Rejected, _ => true, Some(_ => ReturnedTrue)),
               WithDefaults(AlwaysResolve, _ => true, Some(_ => ReturnedTrue)),
               WithDefaults(AlwaysResolve, _ => true, Some(_ => ReturnedTrue))];
    result, spies := RunFresh(cs);
    var zero := Untouched(3);
    RejectionIsTerminal(cs[0], zero[0]);
    AbortSkipsConfirmation(cs, zero, 0);
    AbortWithCooperativeReverts(cs, zero);
    assert Eligible(cs[0]);
  }

  /**
   Lines 150-204: the second task's check is always false; all three reverts
   are called once, PromiseFailedAndReverted. That task's 6 checks and 5
   retries are derived, not asserted.
   */
  method OneFailsAllRevert() returns (result: GroupResult<string>, spies: seq<Calls>)
    ensures result == Aborted(PromiseFailedAndReverted)
    ensures |spies| == 3
    ensures forall i :: 0 <= i < 3 ==> spies[i].revert == 1
    ensures spies[1].success == DefaultRetryAttempts + 1 && spies[1].retry == DefaultRetryAttempts
  {
    var cs := [WithDefaults(AlwaysResolve, PassesFromSecondCheck, Some(_ => ReturnedTrue)),
               WithDefaults(AlwaysResolve, _ => false, Some(_ => ReturnedTrue)),
               WithDefaults(AlwaysResolve, _ => true, Some(_ => ReturnedTrue))];
    result, spies := RunFresh(cs);
    var zero := Untouched(3);
    ExhaustedTaskAbortsGroup(cs, zero, 1);
    AbortWithCooperativeReverts(cs, zero);
    assert Eligible(cs[0]);
  }

  /**
   Lines 206-260: as above, but the third revert always returns false: it is
   called the whole revert budget, the others once, FatalErrorNotReverted.
   */
  method OneRevertFails() returns (result: GroupResult<string>, spies: seq<Calls>)
    ensures result == Aborted(FatalErrorNotReverted)
    ensures |spies| == 3
    ensures spies[0].revert == 1 && spies[1].revert == 1 && spies[2].revert == DefaultRevertAttempts
  {
    var cs := [WithDefaults(AlwaysResolve, PassesFromSecondCheck, Some(_ => ReturnedTrue)),
               WithDefaults(AlwaysResolve, _ => false, Some(_ => ReturnedTrue)),
               WithDefaults(AlwaysResolve, _ => true, Some(_ => ReturnedFalse))];
    result, spies := RunFresh(cs);
    var zero := Untouched(3);
    ExhaustedTaskAbortsGroup(cs, zero, 1);
    CooperativeRevertOnce(cs, zero, 0);
    CooperativeRevertOnce(cs, zero, 1);
    RefusedRevertIsFatal(cs, zero, 2);
  }

  /**
   Lines 262-316: as above, but the third revert throws: every revert is
   called once, FatalErrorNotReverted.
   */
  method OneRevertThrows() returns (result: GroupResult<string>, spies: seq<Calls>)
    ensures result == Aborted(FatalErrorNotReverted)
    ensures |spies| == 3
    ensures forall i :: 0 <= i < 3 ==> spies[i].revert == 1
  {
    var cs := [WithDefaults(AlwaysResolve, PassesFromSecondCheck, Some(_ => ReturnedTrue)),
               WithDefaults(AlwaysResolve, _ => false, Some(_ => ReturnedTrue)),
               WithDefaults(AlwaysResolve, _ => true, Some(_ => Threw))];
    result, spies := RunFresh(cs);
    var zero := Untouched(3);
    ExhaustedTaskAbortsGroup(cs, zero, 1);
    CooperativeRevertOnce(cs, zero, 0);
    CooperativeRevertOnce(cs, zero, 1);
    ThrowingRevertIsFatal(cs, zero, 2);
  }

  /**
   Lines 318-359: a failing task that is not retryable is checked once and
   never retried; both tasks are reverted once, PromiseFailedAndReverted.
   */
  method NotRetryableFails() returns (result: GroupResult<string>, spies: seq<Calls>)
    ensures result == Aborted(PromiseFailedAndReverted)
    ensures |spies| == 2
    ensures spies[0].revert == 1 && spies[0].retry == 0 && spies[0].success == 1
    ensures spies[1].revert == 1
  {
    var cs := [WithDefaults(AlwaysResolve, _ => false, Some(_ => ReturnedTrue)).(isRetryable := false),
               WithDefaults(AlwaysResolve, _ => true, Some(_ => ReturnedTrue))];
    result, spies := RunFresh(cs);
    var zero := Untouched(2);
    NotRetryableChecksOnce(cs[0], zero[0]);
    AbortSkipsConfirmation(cs, zero, 0);
    AbortWithCooperativeReverts(cs, zero);
    assert Eligible(cs[0]);
  }

  /**
   Lines 361-397: the failing task spends its retries and is reverted once;
   its opted-out sibling is not reverted; PromiseFailedAndReverted.
   */
  method SiblingOptsOut() returns (result: GroupResult<string>, spies: seq<Calls>)
    ensures result == Aborted(PromiseFailedAndReverted)
    ensures |spies| == 2
    ensures spies[0].revert == 1 && spies[0].retry == 5 && spies[0].success == DefaultRetryAttempts + 1
    ensures spies[1].revert == 0
  {
    var cs := [WithDefaults(AlwaysResolve, _ => false, Some(_ => ReturnedTrue)),
               WithDefaults(AlwaysResolve, _ => true, None).(revertOnFailure := false)];
    result, spies := RunFresh(cs);
    var zero := Untouched(2);
    ExhaustedTaskAbortsGroup(cs, zero, 0);
    AbortWithCooperativeReverts(cs, zero);
    assert Eligible(cs[0]);
  }

  /**
   Lines 399-431: both tasks opt out of reverting; the failing one is checked
   budget + 1 times and retried budget times, and the error is PromiseFailed.
   */
  method BothOptOut() returns (result: GroupResult<string>, spies: seq<Calls>)
    ensures result == Aborted(PromiseFailed)
    ensures |spies| == 2
    ensures spies[0].retry == DefaultRetryAttempts && spies[0].success == DefaultRetryAttempts + 1
  {
    var cs := [WithDefaults(AlwaysResolve, _ => false, None).(revertOnFailure := false),
               WithDefaults(AlwaysResolve, _ => true, None).(revertOnFailure := false)];
    result, spies := RunFresh(cs);
    var zero := Untouched(2);
    ExhaustedTaskAbortsGroup(cs, zero, 0);
    AbortWithCooperativeReverts(cs, zero);
  }

  /**
   Lines 433-472: the task that succeeded locally is not confirmed, and its
   revert, always false, is called the whole revert budget; the failing task
   is reverted once; FatalErrorNotReverted.
   */
  method SucceededTaskFailsToRevert() returns (result: GroupResult<string>, spies: seq<Calls>)
    ensures result == Aborted(FatalErrorNotReverted)
    ensures |spies| == 2
    ensures spies[0].revert == DefaultRevertAttempts && spies[0].success == 1
    ensures spies[1].revert == 1
  {
    var cs := [WithDefaults(AlwaysResolve, _ => true, Some(_ => ReturnedFalse)),
               WithDefaults(AlwaysResolve, _ => false, Some(_ => ReturnedTrue))];
    result, spies := RunFresh(cs);
    var zero := Untouched(2);
    SucceedsAfterRetries(cs[0], zero[0], 0);
    ExhaustsRetryBudget(cs[1], zero[1]);
    AbortSkipsConfirmation(cs, zero, 1);
    RefusedRevertIsFatal(cs, zero, 0);
    CooperativeRevertOnce(cs, zero, 1);
  }
}
