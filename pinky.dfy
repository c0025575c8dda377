/**
 A pinky promise as an object: its configuration, and the counters that spies
 on its executor, on `success`, on `_retry` and on `revert` would show. Each
 phase is a method whose loop updates those counters in place and whose
 postcondition ties the outcome and the new counters to the pure definition
 of that phase in module Task.
 */
module Pinky {
  import opened Task

  class PinkyPromise<V> {
    const config: Config<V>
    var executorCalls: nat
    var successCalls: nat
    var retryCalls: nat
    var revertCalls: nat

    /** The four call counters as one value. */
    function Spies(): Calls
      reads this
    {
      Calls(executorCalls, successCalls, retryCalls, revertCalls)
    }

    constructor (config: Config<V>)
      ensures this.config == config
      ensures Spies() == Calls(0, 0, 0, 0)
    {
      this.config := config;
      executorCalls, successCalls, retryCalls, revertCalls := 0, 0, 0, 0;
    }

    /**
     Phase A: run the executor and check its value; on a false check retry
     (`_retry`) while the task is retryable and retries are left.
     */
    method Execute() returns (verdict: Verdict<V>)
      modifies this
      ensures (verdict, Spies()) == Prepare(config, old(Spies()))
    {
      var attempt: nat := 0;
      while true
        invariant attempt <= config.retryAttempts
        invariant PrepareFrom(config, Spies(), attempt) == Prepare(config, old(Spies()))
        decreases config.retryAttempts - attempt
      {
        ghost var before := Spies();
        var run := config.executor(executorCalls);
        executorCalls := executorCalls + 1;
        if run.Rejected? {
          assert (LocalFailure, Spies()) == PrepareFrom(config, before, attempt);
          return LocalFailure;
        }
        var passed := config.success(successCalls);
        successCalls := successCalls + 1;
        if passed {
          assert (LocalSuccess(run.value), Spies()) == PrepareFrom(config, before, attempt);
          return LocalSuccess(run.value);
        }
        if !config.isRetryable || attempt == config.retryAttempts {
          assert (LocalFailure, Spies()) == PrepareFrom(config, before, attempt);
          return LocalFailure;
        }
        retryCalls := retryCalls + 1;
        attempt := attempt + 1;
        assert PrepareFrom(config, Spies(), attempt) == PrepareFrom(config, before, attempt - 1);
      }
    }

    /** Phase B: the group's confirmation, one more call of `success`. */
    method ConfirmSuccess() returns (confirmed: bool)
      modifies this
      ensures (confirmed, Spies()) == Confirm(config, old(Spies()))
    {
      confirmed := config.success(successCalls);
      successCalls := successCalls + 1;
    }

    /**
     Compensation: unless the task opted out or has no revert, call `revert`
     until it returns true, the revert budget is spent, or it throws.
     */
    method Revert() returns (outcome: Compensation)
      modifies this
      ensures (outcome, Spies()) == Compensate(config, old(Spies()))
    {
      if !config.revertOnFailure || config.revert.None? {
        return NotAttempted;
      }
      var revert := config.revert.value;
      var attempt: nat := 0;
      while attempt < config.revertAttempts
        invariant attempt <= config.revertAttempts
        invariant RevertFrom(revert, config.revertAttempts, Spies(), attempt) == Compensate(config, old(Spies()))
        decreases config.revertAttempts - attempt
      {
        var reply := revert(revertCalls);
        revertCalls := revertCalls + 1;
        match reply
        case ReturnedTrue =>
          return Reverted;
        case Threw =>
          return NotReverted;
        case ReturnedFalse =>
          attempt := attempt + 1;
      }
      return NotReverted;
    }
  }
}
