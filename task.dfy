/**
 The behaviour of a single pinky promise, as fixed by its observable effects.

 A pinky promise wraps an executor, a `success` check, an optional `revert`
 action and the flags `isRetryable` and `revertOnFailure`. Every callback the
 caller supplies is modelled as an oracle indexed by how many times that
 callback has already been called (the count a spy on it would show), so a
 callback whose answer depends on captured state (a counter bumped by the
 executor, say) is described exactly by its sequence of answers.

 The per-task phases are pure functions from the configuration and the
 current call counts to an outcome and the new call counts:
   - Prepare: run the executor, check it, retry on a false check;
   - Confirm: the extra check the group runs before it commits;
   - Compensate: call revert until it returns true, the budget runs out or it
     throws.
 */
module Task {

  /** Default number of retries after a false `success` check. */
  const DefaultRetryAttempts: nat := 5
  /** Default number of `revert` calls allowed, the first one included. */
  const DefaultRevertAttempts: nat := 5

  datatype Option<T> = None | Some(value: T)

  /** What one run of the executor does: resolve with a value, or throw / reject. */
  datatype Attempt<V> = Resolved(value: V) | Rejected

  /** What one call of `revert` does. */
  datatype RevertReply = ReturnedTrue | ReturnedFalse | Threw

  /**
   The configuration of a pinky promise. `executor(k)`, `success(k)` and
   `revert(k)` give the answer of the k-th call (counting from 0) of that callback.
   */
  datatype Config<V> = Config(
    executor: nat -> Attempt<V>,
    success: nat -> bool,
    revert: Option<nat -> RevertReply>,
    isRetryable: bool,
    revertOnFailure: bool,
    retryAttempts: nat,
    revertAttempts: nat)

  /** A configuration that sets only the callbacks and leaves every option at its default. */
  function WithDefaults<V>(executor: nat -> Attempt<V>, success: nat -> bool,
                           revert: Option<nat -> RevertReply>): Config<V>
  {
    Config(executor, success, revert, true, true, DefaultRetryAttempts, DefaultRevertAttempts)
  }

  /** How often each callback has been called: what spies on them would count. */
  datatype Calls = Calls(executor: nat, success: nat, retry: nat, revert: nat)

  /** The outcome of Phase A for one task. */
  datatype Verdict<V> = LocalSuccess(value: V) | LocalFailure

  /** The outcome of compensating one task when its group aborts. */
  datatype Compensation = NotAttempted | Reverted | NotReverted

  /**
   Phase A, after `attempt` retries have already been made: run the executor
   once; a rejection ends the phase; otherwise check the value, succeed on a
   true check, and on a false one retry while the task is retryable and the
   retry budget is not spent.
   */
  function PrepareFrom<V>(c: Config<V>, s: Calls, attempt: nat): (Verdict<V>, Calls)
    requires attempt <= c.retryAttempts
    decreases c.retryAttempts - attempt
  {
    var ran := s.(executor := s.executor + 1);
    match c.executor(s.executor)
    case Rejected => (LocalFailure, ran)
    case Resolved(v) =>
      var checked := ran.(success := s.success + 1);
      if c.success(s.success) then (LocalSuccess(v), checked)
      else if c.isRetryable && attempt < c.retryAttempts then
        PrepareFrom(c, checked.(retry := s.retry + 1), attempt + 1)
      else (LocalFailure, checked)
  }

  /**
   What Phase A can do, whatever the callbacks answer: the counters it moves,
   the retry budget it respects, and why it stopped.
   */
  lemma {:induction false} PrepareFacts<V>(c: Config<V>, s: Calls, attempt: nat)
    requires attempt <= c.retryAttempts
    decreases c.retryAttempts - attempt
    ensures var (v, t) := PrepareFrom(c, s, attempt);
      // only the executor, success and retry spies move; every run after the first is a retry
      && t.revert == s.revert
      && s.retry <= t.retry <= s.retry + (c.retryAttempts - attempt)
      && (!c.isRetryable ==> t.retry == s.retry)
      && t.executor == s.executor + (t.retry - s.retry) + 1
      // every run before the last one resolved and failed its check
      && FailedRuns(c, s.executor, s.success, t.retry - s.retry)
      // success: the last run resolved with the returned value and its check passed
      && (v.LocalSuccess? ==>
            && t.success == s.success + (t.retry - s.retry) + 1
            && c.executor(t.executor - 1) == Resolved(v.value)
            && c.success(t.success - 1))
      // failure: the last run rejected, or its check failed with no retry left
      && (v.LocalFailure? ==>
            || (c.executor(t.executor - 1).Rejected? && t.success == s.success + (t.retry - s.retry))
            || (&& t.success == s.success + (t.retry - s.retry) + 1
                && c.executor(t.executor - 1).Resolved?
                && !c.success(t.success - 1)
                && (!c.isRetryable || t.retry == s.retry + (c.retryAttempts - attempt))))
  {
    if c.executor(s.executor).Resolved? && !c.success(s.success) && c.isRetryable && attempt < c.retryAttempts {
      PrepareFacts(c, s.(executor := s.executor + 1, success := s.success + 1, retry := s.retry + 1), attempt + 1);
    }
  }

  /**
   The `n` executor runs from run `run` on all resolve, and the checks from
   check `check` on all fail: the runs that lead to a retry.
   */
  predicate FailedRuns<V>(c: Config<V>, run: nat, check: nat, n: nat)
    decreases n
  {
    n == 0 ||
    (&& c.executor(run).Resolved?
     && !c.success(check)
     && FailedRuns(c, run + 1, check + 1, n - 1))
  }

  /** Phase A of a task whose calls so far are counted by `s`. */
  function Prepare<V>(c: Config<V>, s: Calls): (Verdict<V>, Calls)
  {
    PrepareFrom(c, s, 0)
  }

  /** Phase B: the group's one extra `success` check; the executor is not run again. */
  function Confirm<V>(c: Config<V>, s: Calls): (bool, Calls)
  {
    (c.success(s.success), s.(success := s.success + 1))
  }

  /**
   The revert loop after `attempt` calls that returned false: stop at the
   budget, on a true reply, or at once on a throw.
   */
  function RevertFrom(revert: nat -> RevertReply, budget: nat, s: Calls, attempt: nat): (Compensation, Calls)
    requires attempt <= budget
    decreases budget - attempt
  {
    if attempt == budget then (NotReverted, s)
    else
      var called := s.(revert := s.revert + 1);
      match revert(s.revert)
      case ReturnedTrue => (Reverted, called)
      case Threw => (NotReverted, called)
      case ReturnedFalse => RevertFrom(revert, budget, called, attempt + 1)
  }

  /**
   What the revert loop can do, whatever `revert` answers: the counter it
   moves, the budget it respects, and why it stopped.
   */
  lemma {:induction false} RevertFacts(revert: nat -> RevertReply, budget: nat, s: Calls, attempt: nat)
    requires attempt <= budget
    decreases budget - attempt
    ensures var (o, t) := RevertFrom(revert, budget, s, attempt);
      && o != NotAttempted
      // only the revert spy moves, and never past the budget
      && t == s.(revert := t.revert)
      && s.revert <= t.revert <= s.revert + (budget - attempt)
      // every call before the last returned false
      && (forall k :: s.revert <= k < t.revert - 1 ==> revert(k) == ReturnedFalse)
      && (o == Reverted ==> t.revert > s.revert && revert(t.revert - 1) == ReturnedTrue)
      && (o == NotReverted ==>
            || (t.revert > s.revert && revert(t.revert - 1) == Threw)
            || (&& t.revert == s.revert + (budget - attempt)
                && forall k :: s.revert <= k < t.revert ==> revert(k) == ReturnedFalse))
  {
    if attempt < budget && revert(s.revert) == ReturnedFalse {
      RevertFacts(revert, budget, s.(revert := s.revert + 1), attempt + 1);
    }
  }

  /** A task takes part in compensation only when it has a revert and has not opted out. */
  predicate Eligible<V>(c: Config<V>)
  {
    c.revertOnFailure && c.revert.Some?
  }

  /** Compensation of one task when its group aborts. */
  function Compensate<V>(c: Config<V>, s: Calls): (Compensation, Calls)
  {
    if Eligible(c) then RevertFrom(c.revert.value, c.revertAttempts, s, 0) else (NotAttempted, s)
  }

  /**
   Compensation is attempted exactly for the eligible tasks; it moves only the
   revert counter, not at all for an ineligible task, and never past the budget.
   */
  lemma CompensateFacts<V>(c: Config<V>, s: Calls)
    ensures var (o, t) := Compensate(c, s);
      && (o == NotAttempted <==> !Eligible(c))
      && (!Eligible(c) ==> t == s)
      && t == s.(revert := t.revert)
      && s.revert <= t.revert <= s.revert + c.revertAttempts
  {
    if Eligible(c) {
      RevertFacts(c.revert.value, c.revertAttempts, s, 0);
    }
  }

  // ---------------------------------------------------------------------
  // Phase A: retry arithmetic

  lemma {:induction false} ExhaustsFrom<V>(c: Config<V>, s: Calls, attempt: nat)
    requires attempt <= c.retryAttempts && c.isRetryable
    requires forall k :: k >= s.executor ==> c.executor(k).Resolved?
    requires forall k :: k >= s.success ==> !c.success(k)
    ensures PrepareFrom(c, s, attempt).0 == LocalFailure
    ensures PrepareFrom(c, s, attempt).1 ==
              s.(executor := s.executor + (c.retryAttempts - attempt) + 1,
                 success := s.success + (c.retryAttempts - attempt) + 1,
                 retry := s.retry + (c.retryAttempts - attempt))
    decreases c.retryAttempts - attempt
  {
    if attempt < c.retryAttempts {
      var next := s.(executor := s.executor + 1, success := s.success + 1, retry := s.retry + 1);
      ExhaustsFrom(c, next, attempt + 1);
    }
  }

  /**
   A retryable task whose check is always false fails after spending its whole
   retry budget: `success` is called budget + 1 times and `_retry` budget times.
   */
  lemma ExhaustsRetryBudget<V>(c: Config<V>, s: Calls)
    requires c.isRetryable
    requires forall k :: k >= s.executor ==> c.executor(k).Resolved?
    requires forall k :: k >= s.success ==> !c.success(k)
    ensures Prepare(c, s).0 == LocalFailure
    ensures Prepare(c, s).1.success == s.success + c.retryAttempts + 1
    ensures Prepare(c, s).1.retry == s.retry + c.retryAttempts
    ensures Prepare(c, s).1.executor == s.executor + c.retryAttempts + 1
  {
    ExhaustsFrom(c, s, 0);
  }

  /** With the default budget that is 6 checks and 5 retries. */
  lemma DefaultBudgetSixChecks<V>(executor: nat -> Attempt<V>, revert: Option<nat -> RevertReply>)
    requires forall k :: executor(k).Resolved?
    ensures var r := Prepare(WithDefaults(executor, _ => false, revert), Calls(0, 0, 0, 0));
            r.0 == LocalFailure && r.1.success == 6 && r.1.retry == 5
  {
    ExhaustsRetryBudget(WithDefaults(executor, _ => false, revert), Calls(0, 0, 0, 0));
  }

  /** A task that is not retryable is checked once and never retried. */
  lemma NotRetryableChecksOnce<V>(c: Config<V>, s: Calls)
    requires !c.isRetryable && c.executor(s.executor).Resolved? && !c.success(s.success)
    ensures Prepare(c, s) == (LocalFailure, s.(executor := s.executor + 1, success := s.success + 1))
  {
  }

  lemma {:induction false} SucceedsFrom<V>(c: Config<V>, s: Calls, attempt: nat, n: nat)
    requires (n == 0 || c.isRetryable) && attempt + n <= c.retryAttempts
    requires forall k :: s.executor <= k <= s.executor + n ==> c.executor(k).Resolved?
    requires forall k :: s.success <= k < s.success + n ==> !c.success(k)
    requires c.success(s.success + n)
    ensures PrepareFrom(c, s, attempt) ==
              (LocalSuccess(c.executor(s.executor + n).value),
               s.(executor := s.executor + n + 1, success := s.success + n + 1, retry := s.retry + n))
    decreases n
  {
    if n > 0 {
      var next := s.(executor := s.executor + 1, success := s.success + 1, retry := s.retry + 1);
      SucceedsFrom(c, next, attempt + 1, n - 1);
    }
  }

  /**
   A task whose check first passes on its (n+1)-th call, within the retry
   budget, succeeds with the value of its (n+1)-th run after n retries; with
   n = 0 this holds whether or not the task is retryable.
   */
  lemma SucceedsAfterRetries<V>(c: Config<V>, s: Calls, n: nat)
    requires (n == 0 || c.isRetryable) && n <= c.retryAttempts
    requires forall k :: s.executor <= k <= s.executor + n ==> c.executor(k).Resolved?
    requires forall k :: s.success <= k < s.success + n ==> !c.success(k)
    requires c.success(s.success + n)
    ensures Prepare(c, s) ==
              (LocalSuccess(c.executor(s.executor + n).value),
               s.(executor := s.executor + n + 1, success := s.success + n + 1, retry := s.retry + n))
  {
    SucceedsFrom(c, s, 0, n);
  }

  /** An executor that throws ends Phase A at once: no check, no retry. */
  lemma RejectionIsTerminal<V>(c: Config<V>, s: Calls)
    requires c.executor(s.executor).Rejected?
    ensures Prepare(c, s) == (LocalFailure, s.(executor := s.executor + 1))
  {
  }

  // ---------------------------------------------------------------------
  // Compensation: revert arithmetic

  /** A revert that always returns false is called exactly the revert budget and fails. */
  lemma RevertFalseSpendsBudget<V>(c: Config<V>, s: Calls)
    requires Eligible(c)
    requires forall k :: k >= s.revert ==> c.revert.value(k) == ReturnedFalse
    ensures Compensate(c, s) == (NotReverted, s.(revert := s.revert + c.revertAttempts))
  {
    RevertFacts(c.revert.value, c.revertAttempts, s, 0);
  }

  /** A revert that throws is called exactly once, whatever the budget, and fails. */
  lemma RevertThrowStopsAtOnce<V>(c: Config<V>, s: Calls)
    requires Eligible(c) && c.revertAttempts >= 1
    requires c.revert.value(s.revert) == Threw
    ensures Compensate(c, s) == (NotReverted, s.(revert := s.revert + 1))
  {
  }

  /** A revert that returns true on its first call is called exactly once and succeeds. */
  lemma RevertTrueOnce<V>(c: Config<V>, s: Calls)
    requires Eligible(c) && c.revertAttempts >= 1
    requires c.revert.value(s.revert) == ReturnedTrue
    ensures Compensate(c, s) == (Reverted, s.(revert := s.revert + 1))
  {
  }
}
