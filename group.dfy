/**
 The group protocol of `PinkyPromise.all` / `PinkyPromise.allSeq` as a pure
 function of the tasks' configurations and call counts.

 Phase A runs for every task. If every task succeeded locally, each task's
 `success` check runs once more as the group's confirmation and, if every
 confirmation passes, the group commits with the values in input order.
 Otherwise the group aborts: every eligible task is compensated, and the
 outcomes are classified into one of three errors, FatalErrorNotReverted
 dominating PromiseFailedAndReverted dominating PromiseFailed.
 */
module Group {
  import opened Task

  datatype GroupError = PromiseFailed | PromiseFailedAndReverted | FatalErrorNotReverted

  /** What the group call settles to: the ordered values, or one classified error. */
  datatype GroupResult<V> = Committed(values: seq<V>) | Aborted(error: GroupError)

  function Severity(e: GroupError): nat
  {
    match e
    case PromiseFailed => 0
    case PromiseFailedAndReverted => 1
    case FatalErrorNotReverted => 2
  }

  /** The error a single task's compensation outcome calls for on its own. */
  function ErrorOf(o: Compensation): GroupError
  {
    match o
    case NotAttempted => PromiseFailed
    case Reverted => PromiseFailedAndReverted
    case NotReverted => FatalErrorNotReverted
  }

  /**
   The error an aborted group raises: the most severe of the errors its tasks'
   compensation outcomes call for.
   */
  function Classify(outcomes: seq<Compensation>): (e: GroupError)
    ensures e == FatalErrorNotReverted <==> NotReverted in outcomes
    ensures e == PromiseFailedAndReverted <==> NotReverted !in outcomes && Reverted in outcomes
    ensures e == PromiseFailed <==> forall o :: o in outcomes ==> o == NotAttempted
  {
    if outcomes == [] then PromiseFailed
    else
      var here, rest := ErrorOf(outcomes[0]), Classify(outcomes[1..]);
      assert outcomes == [outcomes[0]] + outcomes[1..];
      if Severity(here) >= Severity(rest) then here else rest
  }

  // ---------------------------------------------------------------------
  // The phases, task by task

  function PrepareAll<V>(cs: seq<Config<V>>, ss: seq<Calls>): seq<(Verdict<V>, Calls)>
    requires |cs| == |ss|
  {
    seq(|cs|, i requires 0 <= i < |cs| => Prepare(cs[i], ss[i]))
  }

  function ConfirmAll<V>(cs: seq<Config<V>>, ss: seq<Calls>): seq<(bool, Calls)>
    requires |cs| == |ss|
  {
    seq(|cs|, i requires 0 <= i < |cs| => Confirm(cs[i], ss[i]))
  }

  function CompensateAll<V>(cs: seq<Config<V>>, ss: seq<Calls>): seq<(Compensation, Calls)>
    requires |cs| == |ss|
  {
    seq(|cs|, i requires 0 <= i < |cs| => Compensate(cs[i], ss[i]))
  }

  /** The call counts after a phase. */
  function CallsAfter<T>(steps: seq<(T, Calls)>): seq<Calls>
  {
    seq(|steps|, i requires 0 <= i < |steps| => steps[i].1)
  }

  predicate AllSucceeded<V>(prepared: seq<(Verdict<V>, Calls)>)
  {
    forall i :: 0 <= i < |prepared| ==> prepared[i].0.LocalSuccess?
  }

  predicate AllConfirmed(confirmed: seq<(bool, Calls)>)
  {
    forall i :: 0 <= i < |confirmed| ==> confirmed[i].0
  }

  function ValuesOf<V>(prepared: seq<(Verdict<V>, Calls)>): seq<V>
    requires AllSucceeded(prepared)
  {
    seq(|prepared|, i requires 0 <= i < |prepared| => prepared[i].0.value)
  }

  /** Compensate every task and raise the classified error. */
  function Abort<V>(cs: seq<Config<V>>, ss: seq<Calls>): (GroupResult<V>, seq<Calls>)
    requires |cs| == |ss|
  {
    var compensated := CompensateAll(cs, ss);
    (Aborted(Classify(seq(|compensated|, i requires 0 <= i < |compensated| => compensated[i].0))),
     CallsAfter(compensated))
  }

  /**
   One group call over tasks with configurations `cs` whose callbacks have so
   far been called as counted in `ss`: the result, and every task's counts after.
   */
  function RunGroup<V>(cs: seq<Config<V>>, ss: seq<Calls>): (GroupResult<V>, seq<Calls>)
    requires |cs| == |ss|
  {
    var prepared := PrepareAll(cs, ss);
    if !AllSucceeded(prepared) then Abort(cs, CallsAfter(prepared))
    else
      var confirmed := ConfirmAll(cs, CallsAfter(prepared));
      if AllConfirmed(confirmed) then (Committed(ValuesOf(prepared)), CallsAfter(confirmed))
      else Abort(cs, CallsAfter(confirmed))
  }

  // ---------------------------------------------------------------------
  // Commit

  /** The group commits exactly when every task succeeds locally and then passes its confirmation. */
  lemma CommitIff<V>(cs: seq<Config<V>>, ss: seq<Calls>)
    requires |cs| == |ss|
    ensures RunGroup(cs, ss).0.Committed? <==>
              forall i :: 0 <= i < |cs| ==>
                Prepare(cs[i], ss[i]).0.LocalSuccess? && cs[i].success(Prepare(cs[i], ss[i]).1.success)
  {
    var prepared := PrepareAll(cs, ss);
    if AllSucceeded(prepared) {
      var confirmed := ConfirmAll(cs, CallsAfter(prepared));
      assert forall i :: 0 <= i < |cs| ==> confirmed[i].0 == cs[i].success(Prepare(cs[i], ss[i]).1.success);
    } else {
      var i :| 0 <= i < |cs| && prepared[i].0.LocalFailure?;
      assert !Prepare(cs[i], ss[i]).0.LocalSuccess?;
    }
  }

  /**
   On commit the values come back in input order, each the value of its
   task's last executor run; each task's `success` was called once more than
   in Phase A, its executor was not run again, and nothing was reverted.
   */
  lemma CommitValuesInOrder<V>(cs: seq<Config<V>>, ss: seq<Calls>)
    requires |cs| == |ss|
    requires RunGroup(cs, ss).0.Committed?
    ensures |RunGroup(cs, ss).0.values| == |cs| && |RunGroup(cs, ss).1| == |cs|
    ensures forall i :: 0 <= i < |cs| ==>
              var (v, t) := Prepare(cs[i], ss[i]);
              var after := RunGroup(cs, ss).1[i];
              && v == LocalSuccess(RunGroup(cs, ss).0.values[i])
              && after == t.(success := t.success + 1)
              && after.executor > ss[i].executor
              && cs[i].executor(after.executor - 1) == Resolved(RunGroup(cs, ss).0.values[i])
              && after.revert == ss[i].revert
  {
    var prepared := PrepareAll(cs, ss);
    forall i | 0 <= i < |cs|
      ensures var (v, t) := Prepare(cs[i], ss[i]);
              var after := RunGroup(cs, ss).1[i];
              && v == LocalSuccess(RunGroup(cs, ss).0.values[i])
              && after == t.(success := t.success + 1)
              && after.executor > ss[i].executor
              && cs[i].executor(after.executor - 1) == Resolved(RunGroup(cs, ss).0.values[i])
              && after.revert == ss[i].revert
    {
      PrepareFacts(cs[i], ss[i], 0);
    }
  }

  /**
   A group in which every task resolves on its first run and passes its first
   two checks commits with those values, each `success` called exactly twice
   (once locally, once by the group) and no revert called.
   */
  lemma CommitAtFirstAttempt<V>(cs: seq<Config<V>>, ss: seq<Calls>)
    requires |cs| == |ss|
    requires forall i :: 0 <= i < |cs| ==>
               cs[i].executor(ss[i].executor).Resolved? && cs[i].success(ss[i].success) && cs[i].success(ss[i].success + 1)
    ensures RunGroup(cs, ss).0 == Committed(seq(|cs|, i requires 0 <= i < |cs| => cs[i].executor(ss[i].executor).value))
    ensures forall i :: 0 <= i < |cs| ==>
              RunGroup(cs, ss).1[i] == ss[i].(executor := ss[i].executor + 1, success := ss[i].success + 2)
  {
    forall i | 0 <= i < |cs|
      ensures Prepare(cs[i], ss[i]) ==
                (LocalSuccess(cs[i].executor(ss[i].executor).value),
                 ss[i].(executor := ss[i].executor + 1, success := ss[i].success + 1))
    {
      SucceedsAfterRetries(cs[i], ss[i], 0);
    }
    CommitIff(cs, ss);
    CommitValuesInOrder(cs, ss);
  }

  // ---------------------------------------------------------------------
  // Abort

  /**
   An aborting group compensates from the counts left by Phase A (or by
   Phase B), which never move the revert spy.
   */
  lemma AbortedFrom<V>(cs: seq<Config<V>>, ss: seq<Calls>) returns (mid: seq<Calls>)
    requires |cs| == |ss|
    requires RunGroup(cs, ss).0.Aborted?
    ensures |mid| == |cs| && RunGroup(cs, ss) == Abort(cs, mid)
    ensures forall i :: 0 <= i < |cs| ==> mid[i].revert == ss[i].revert
  {
    var prepared := PrepareAll(cs, ss);
    forall i | 0 <= i < |cs| ensures Prepare(cs[i], ss[i]).1.revert == ss[i].revert {
      PrepareFacts(cs[i], ss[i], 0);
    }
    if !AllSucceeded(prepared) {
      mid := CallsAfter(prepared);
    } else {
      mid := CallsAfter(ConfirmAll(cs, CallsAfter(prepared)));
    }
  }

  /**
   When any task fails locally the group aborts without confirming anyone:
   after Phase A only the revert spies move, so a task that succeeded
   locally has had `success` called only for its local attempts.
   */
  lemma AbortSkipsConfirmation<V>(cs: seq<Config<V>>, ss: seq<Calls>, j: nat)
    requires |cs| == |ss| && j < |cs|
    requires Prepare(cs[j], ss[j]).0.LocalFailure?
    ensures RunGroup(cs, ss).0.Aborted?
    ensures |RunGroup(cs, ss).1| == |cs|
    ensures forall i :: 0 <= i < |cs| ==>
              RunGroup(cs, ss).1[i] == Prepare(cs[i], ss[i]).1.(revert := RunGroup(cs, ss).1[i].revert)
  {
    assert PrepareAll(cs, ss)[j] == Prepare(cs[j], ss[j]);
    forall i | 0 <= i < |cs| {
      CompensateFacts(cs[i], Prepare(cs[i], ss[i]).1);
    }
  }

  /**
   Whatever the outcome, a task that opted out of compensation or has no
   revert is never reverted, and no task's revert is called more often than
   its revert budget.
   */
  lemma RevertOnlyEligible<V>(cs: seq<Config<V>>, ss: seq<Calls>)
    requires |cs| == |ss|
    ensures |RunGroup(cs, ss).1| == |cs|
    ensures forall i :: 0 <= i < |cs| ==>
              && ss[i].revert <= RunGroup(cs, ss).1[i].revert <= ss[i].revert + cs[i].revertAttempts
              && (!Eligible(cs[i]) ==> RunGroup(cs, ss).1[i].revert == ss[i].revert)
  {
    if RunGroup(cs, ss).0.Aborted? {
      var mid := AbortedFrom(cs, ss);
      forall i | 0 <= i < |cs| {
        CompensateFacts(cs[i], mid[i]);
      }
    } else {
      CommitValuesInOrder(cs, ss);
    }
  }

  /** In an aborting group, a task whose revert returns true at once is reverted exactly once. */
  lemma CooperativeRevertOnce<V>(cs: seq<Config<V>>, ss: seq<Calls>, j: nat)
    requires |cs| == |ss| && j < |cs|
    requires RunGroup(cs, ss).0.Aborted?
    requires Eligible(cs[j]) && cs[j].revertAttempts >= 1
    requires cs[j].revert.value(ss[j].revert) == ReturnedTrue
    ensures |RunGroup(cs, ss).1| == |cs|
    ensures RunGroup(cs, ss).1[j].revert == ss[j].revert + 1
  {
    var mid := AbortedFrom(cs, ss);
    RevertTrueOnce(cs[j], mid[j]);
  }

  /**
   In an aborting group whose eligible tasks' reverts all return true at once,
   each eligible task is reverted exactly once, every other task not at all,
   and the error is PromiseFailedAndReverted, or PromiseFailed when no task
   is eligible.
   */
  lemma AbortWithCooperativeReverts<V>(cs: seq<Config<V>>, ss: seq<Calls>)
    requires |cs| == |ss|
    requires RunGroup(cs, ss).0.Aborted?
    requires forall i :: 0 <= i < |cs| && Eligible(cs[i]) ==>
               cs[i].revertAttempts >= 1 && cs[i].revert.value(ss[i].revert) == ReturnedTrue
    ensures RunGroup(cs, ss).0.error ==
              if exists i :: 0 <= i < |cs| && Eligible(cs[i]) then PromiseFailedAndReverted else PromiseFailed
    ensures |RunGroup(cs, ss).1| == |cs|
    ensures forall i :: 0 <= i < |cs| ==>
              RunGroup(cs, ss).1[i].revert == ss[i].revert + (if Eligible(cs[i]) then 1 else 0)
  {
    var mid := AbortedFrom(cs, ss);
    var compensated := CompensateAll(cs, mid);
    var outcomes := seq(|compensated|, i requires 0 <= i < |compensated| => compensated[i].0);
    forall i | 0 <= i < |cs|
      ensures outcomes[i] == (if Eligible(cs[i]) then Reverted else NotAttempted)
      ensures compensated[i].1.revert == ss[i].revert + (if Eligible(cs[i]) then 1 else 0)
    {
      if Eligible(cs[i]) {
        RevertTrueOnce(cs[i], mid[i]);
      }
    }
    if exists i :: 0 <= i < |cs| && Eligible(cs[i]) {
      var i :| 0 <= i < |cs| && Eligible(cs[i]);
      assert outcomes[i] == Reverted;
    }
  }

  /**
   In an aborting group, a task whose revert returns false every time has it
   called exactly its revert budget, and the error is FatalErrorNotReverted
   whatever its siblings' reverts did.
   */
  lemma RefusedRevertIsFatal<V>(cs: seq<Config<V>>, ss: seq<Calls>, j: nat)
    requires |cs| == |ss| && j < |cs|
    requires RunGroup(cs, ss).0.Aborted?
    requires Eligible(cs[j])
    requires forall k :: k >= ss[j].revert ==> cs[j].revert.value(k) == ReturnedFalse
    ensures RunGroup(cs, ss).0.error == FatalErrorNotReverted
    ensures |RunGroup(cs, ss).1| == |cs|
    ensures RunGroup(cs, ss).1[j].revert == ss[j].revert + cs[j].revertAttempts
  {
    var mid := AbortedFrom(cs, ss);
    RevertFalseSpendsBudget(cs[j], mid[j]);
    var compensated := CompensateAll(cs, mid);
    var outcomes := seq(|compensated|, i requires 0 <= i < |compensated| => compensated[i].0);
    assert outcomes[j] == NotReverted;
  }

  /**
   In an aborting group, a task whose revert throws on its first call has it
   called exactly once, and the error is FatalErrorNotReverted whatever its
   siblings' reverts did.
   */
  lemma ThrowingRevertIsFatal<V>(cs: seq<Config<V>>, ss: seq<Calls>, j: nat)
    requires |cs| == |ss| && j < |cs|
    requires RunGroup(cs, ss).0.Aborted?
    requires Eligible(cs[j]) && cs[j].revertAttempts >= 1
    requires cs[j].revert.value(ss[j].revert) == Threw
    ensures RunGroup(cs, ss).0.error == FatalErrorNotReverted
    ensures |RunGroup(cs, ss).1| == |cs|
    ensures RunGroup(cs, ss).1[j].revert == ss[j].revert + 1
  {
    var mid := AbortedFrom(cs, ss);
    RevertThrowStopsAtOnce(cs[j], mid[j]);
    var compensated := CompensateAll(cs, mid);
    var outcomes := seq(|compensated|, i requires 0 <= i < |compensated| => compensated[i].0);
    assert outcomes[j] == NotReverted;
  }

  /**
   A retryable task whose executor keeps resolving and whose check is always
   false makes its group abort, after budget + 1 checks and budget retries,
   with no confirmation check on top.
   */
  lemma ExhaustedTaskAbortsGroup<V>(cs: seq<Config<V>>, ss: seq<Calls>, j: nat)
    requires |cs| == |ss| && j < |cs|
    requires cs[j].isRetryable
    requires forall k :: k >= ss[j].executor ==> cs[j].executor(k).Resolved?
    requires forall k :: k >= ss[j].success ==> !cs[j].success(k)
    ensures RunGroup(cs, ss).0.Aborted?
    ensures |RunGroup(cs, ss).1| == |cs|
    ensures RunGroup(cs, ss).1[j].success == ss[j].success + cs[j].retryAttempts + 1
    ensures RunGroup(cs, ss).1[j].retry == ss[j].retry + cs[j].retryAttempts
  {
    ExhaustsRetryBudget(cs[j], ss[j]);
    AbortSkipsConfirmation(cs, ss, j);
  }
}
