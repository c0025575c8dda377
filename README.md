# Pinky promises: a verified model of the group protocol

This project models `PinkyPromise` and its group coordinators `PinkyPromise.all`
and `PinkyPromise.allSeq`. A pinky promise wraps:

- an executor;
- a `success` check on its result;
- an optional `revert` action;
- the flags `isRetryable` and `revertOnFailure`;
- a retry budget and a revert budget, both 5 by default.

A group either commits or aborts:

- **Commit.** Every task succeeds locally, and every task's `success` check then passes once more as the group's confirmation. The group returns the values in input order.
- **Abort.** Otherwise every eligible task is reverted. The group raises `PromiseFailed`, `PromiseFailedAndReverted` or `FatalErrorNotReverted`.

The behaviour modelled is the behaviour fixed by the test suite
`__tests__/flows/group-of-pinky-promises.test.ts`. The implementation under
`src` is not part of this model. Every callback the caller supplies is an
oracle indexed by how many times it has been called already: the k-th run of
the executor, the k-th call of `success`, the k-th call of `revert`. So a
check that depends on a counter the executor bumps is described exactly by
its sequence of answers. The spy counts the tests assert on are explicit
counters: `Calls` as a value, and the fields of the class `PinkyPromise`.

Modules:

- `Task` (task.dfy): the per-task phases as pure functions, and lemmas about retry and revert arithmetic.
  - `Prepare` is Phase A: run, check, and retry through `_retry`.
  - `Confirm` is the group's extra check.
  - `Compensate` is the revert loop.
- `Pinky` (pinky.dfy): the class `PinkyPromise`. Its counters are updated in place by methods with loops. Each method is proved equal to the corresponding `Task` function.
- `Group` (group.dfy): the commit/abort decision and the three-way error classification as pure functions, with the lemmas the tests' assertions become.
- `Coordinator` (coordinator.dfy): `All` drives a sequence of `PinkyPromise` objects through the protocol. It is proved to produce the result and the call counts of `Group.RunGroup`.
- `Scenarios` (scenarios.dfy): each flow of the group test suite, run on fresh `PinkyPromise` objects through `Coordinator.All`, with the outcome and the spy counts that test asserts as postconditions, together with counts the model derives where the test asserts none.

Decisions where the tests leave the behaviour open:

- **When the confirmation check runs.** Only when every task succeeded locally. When the group aborts, a task that succeeded locally has had `success` called once, not twice (lines 468 and 1013).
- **A failed confirmation aborts the group.** No test exercises this case.
- **Confirmation does not stop early.** Every task is confirmed, even after an earlier task's confirmation has failed.
- **Phase A does not stop early.** It runs on every task, even after an earlier task has failed locally.
- **Checks do not throw.** `success` always answers true or false. A check that throws is not represented.
- **A task whose executor threw is still reverted when the group aborts.** The title of the test at lines 108-148 says "the rest should revert", and no test counts that task's revert calls.
- **An executor that throws or rejects ends Phase A at once.** It is not retried. The tests show only a throw on the first run.
- **A budget of 0 is allowed.** A retry budget of 0 gives a single check. A revert budget of 0 gives no `revert` call and an outcome of `NotReverted`. No test sets either budget.

## Model

| member | source | states |
|---|---|---|
| `Task.PrepareFacts` | __tests__/flows/group-of-pinky-promises.test.ts:61-105 | Phase A only moves the executor, `success` and `_retry` counters. Retries never exceed the budget, and there are none when the task is not retryable. Every run is the first run or a retry. Every run before the last resolved and failed its check. A local success carries the value of the last run, whose check passed. A local failure means the last run threw, or its check failed with no retry left |
| `Task.ExhaustsRetryBudget` | __tests__/flows/group-of-pinky-promises.test.ts:392-394 | A retryable task whose check is always false fails with `success` called budget+1 times, `_retry` called budget times and the executor run budget+1 times |
| `Task.DefaultBudgetSixChecks` | __tests__/flows/group-of-pinky-promises.test.ts:427-428 | With the default options and an always-false check: `success` 6 times, `_retry` 5 times, local failure |
| `Task.NotRetryableChecksOnce` | __tests__/flows/group-of-pinky-promises.test.ts:354-355 | With `isRetryable: false` and a false check: one run, one `success` call, no `_retry`, local failure |
| `Task.SucceedsAfterRetries` | __tests__/flows/group-of-pinky-promises.test.ts:61-72 | A check that first passes on its (n+1)-th call, within the budget, gives success with the (n+1)-th run's value after exactly n retries and n+1 checks |
| `Task.RejectionIsTerminal` | __tests__/flows/group-of-pinky-promises.test.ts:108-118 | An executor that throws ends Phase A at once: local failure, no check, no retry |
| `Task.RevertFacts` | __tests__/flows/group-of-pinky-promises.test.ts:255-258 | The revert loop only moves the revert counter and never exceeds the budget. Every call before the last returned false. `Reverted` means the last call returned true. `NotReverted` means the last call threw, or every call within the budget returned false |
| `Task.CompensateFacts` | __tests__/flows/group-of-pinky-promises.test.ts:392-395 | Compensation is attempted exactly for tasks that have a revert and did not opt out. An ineligible task's counters are untouched. At most the revert budget of calls is made |
| `Task.RevertFalseSpendsBudget` | __tests__/flows/group-of-pinky-promises.test.ts:467 | A revert that always returns false is called exactly the revert budget times, and the outcome is `NotReverted` |
| `Task.RevertThrowStopsAtOnce` | __tests__/flows/group-of-pinky-promises.test.ts:311-313 | A revert that throws on its first call is called exactly once, whatever the budget, and the outcome is `NotReverted` |
| `Task.RevertTrueOnce` | __tests__/flows/group-of-pinky-promises.test.ts:199-202 | A revert that returns true at once is called exactly once, and the outcome is `Reverted` |
| `Pinky.PinkyPromise.constructor` | __tests__/flows/group-of-pinky-promises.test.ts:18-27 | A new pinky promise keeps its configuration, and all its spy counters are zero |
| `Pinky.PinkyPromise.Execute` | __tests__/flows/group-of-pinky-promises.test.ts:392-394 | The retry loop returns exactly the verdict and the counters of `Task.Prepare` from the counters it started with |
| `Pinky.PinkyPromise.ConfirmSuccess` | __tests__/flows/group-of-pinky-promises.test.ts:55 | The group confirmation answers with the next `success` call and moves only that counter |
| `Pinky.PinkyPromise.Revert` | __tests__/flows/group-of-pinky-promises.test.ts:255-258 | The revert loop returns exactly the outcome and the counters of `Task.Compensate` |
| `Group.Classify` | __tests__/flows/group-of-pinky-promises.test.ts:467-470 | `FatalErrorNotReverted` exactly when some revert failed. `PromiseFailedAndReverted` exactly when none failed and some succeeded. `PromiseFailed` exactly when no revert was attempted |
| `Group.CommitIff` | __tests__/flows/group-of-pinky-promises.test.ts:52-58 | The group commits if and only if every task succeeds locally and then passes its confirmation check |
| `Group.CommitValuesInOrder` | __tests__/flows/group-of-pinky-promises.test.ts:99-105 | On commit, the i-th value is task i's value, from its last executor run. Each task's `success` count is its local count plus one. No executor is run again, and no revert is called |
| `Group.CommitAtFirstAttempt` | __tests__/flows/group-of-pinky-promises.test.ts:510-516 | Tasks that resolve at once and pass two checks commit with their values in order. Each has had `success` called exactly 1+1 times and `revert` never |
| `Group.AbortSkipsConfirmation` | __tests__/flows/group-of-pinky-promises.test.ts:467-468 | One local failure makes the group abort. After Phase A only revert counters move, so no task gets a confirmation check |
| `Group.RevertOnlyEligible` | __tests__/flows/group-of-pinky-promises.test.ts:427-429 | In every outcome, a task with `revertOnFailure: false` or no revert is never reverted, and no revert is called beyond its budget |
| `Group.AbortWithCooperativeReverts` | __tests__/flows/group-of-pinky-promises.test.ts:195-202 | In an aborting group whose eligible reverts return true, each eligible task is reverted exactly once, including the failing one, and the others not at all. The error is `PromiseFailedAndReverted`, or `PromiseFailed` when no task is eligible |
| `Group.CooperativeRevertOnce` | __tests__/flows/group-of-pinky-promises.test.ts:199-202 | In an aborting group, a task whose revert returns true at once is reverted exactly once |
| `Group.RefusedRevertIsFatal` | __tests__/flows/group-of-pinky-promises.test.ts:251-258 | In an aborting group, a revert that always returns false is called budget times, and the error is `FatalErrorNotReverted` even when sibling reverts succeeded |
| `Group.ThrowingRevertIsFatal` | __tests__/flows/group-of-pinky-promises.test.ts:307-314 | In an aborting group, a revert that throws is called once, and the error is `FatalErrorNotReverted` even when sibling reverts succeeded |
| `Group.ExhaustedTaskAbortsGroup` | __tests__/flows/group-of-pinky-promises.test.ts:423-429 | A retryable task that never passes its check makes the group abort, with exactly budget+1 `success` calls and budget `_retry` calls for that task |
| `Coordinator.PrepareEach` | __tests__/flows/group-of-pinky-promises.test.ts:52 | Runs Phase A on every task. Its verdicts and counters are those of `Task.Prepare`, task by task |
| `Coordinator.ConfirmEach` | __tests__/flows/group-of-pinky-promises.test.ts:55-58 | Runs the confirmation on every task. It reports whether all passed, and its counters are those of `Task.Confirm` |
| `Coordinator.RevertEach` | __tests__/flows/group-of-pinky-promises.test.ts:199-202 | Compensates every task. Its outcomes and counters are those of `Task.Compensate`, task by task |
| `Coordinator.All` | __tests__/flows/group-of-pinky-promises.test.ts:140-145 | `PinkyPromise.all` over the objects settles to exactly the result and the call counts of `Group.RunGroup` |
| `Scenarios.RunFresh` | __tests__/flows/group-of-pinky-promises.test.ts:52 | A group of newly built pinky promises settles to the result and call counts of `Group.RunGroup` from all-zero counters |
| `Scenarios.AllSucceed` | __tests__/flows/group-of-pinky-promises.test.ts:17-59 | Three tasks that resolve and pass commit with `['resolve', 'resolve', 'resolve']`. Each `success` is called 1+1 times, and the first `revert` never |
| `Scenarios.SucceedInRetries` | __tests__/flows/group-of-pinky-promises.test.ts:61-106 | The first task passes on its second check, after one `_retry`, and the group commits with the three values. `success` is called 3, 2 and 2 times, and no revert is called. The single `_retry` is derived, not asserted |
| `Scenarios.ExecutorThrows` | __tests__/flows/group-of-pinky-promises.test.ts:108-148 | An executor that throws makes the group fail with `PromiseFailedAndReverted`, the one thing the test asserts. Derived, not asserted: each of the three reverts is called once, including the throwing task's |
| `Scenarios.OneFailsAllRevert` | __tests__/flows/group-of-pinky-promises.test.ts:150-204 | One always-false check: every revert is called once, and the error is `PromiseFailedAndReverted`. Derived, not asserted: that task is checked 6 times and retried 5 times |
| `Scenarios.OneRevertFails` | __tests__/flows/group-of-pinky-promises.test.ts:206-260 | With a revert that always returns false: that revert is called 5 times, the other two once each, and the error is `FatalErrorNotReverted` |
| `Scenarios.OneRevertThrows` | __tests__/flows/group-of-pinky-promises.test.ts:262-316 | With a revert that throws: every revert is called once, and the error is `FatalErrorNotReverted` |
| `Scenarios.NotRetryableFails` | __tests__/flows/group-of-pinky-promises.test.ts:318-359 | A failing task that is not retryable is checked once and never retried. Both reverts are called once, and the error is `PromiseFailedAndReverted` |
| `Scenarios.SiblingOptsOut` | __tests__/flows/group-of-pinky-promises.test.ts:361-397 | The failing task is checked 6 times, retried 5 times and reverted once. Its sibling that opted out is never reverted, and the error is `PromiseFailedAndReverted` |
| `Scenarios.BothOptOut` | __tests__/flows/group-of-pinky-promises.test.ts:399-431 | When both tasks opt out of reverting, the failing one is checked 6 times and retried 5 times, and the error is `PromiseFailed` |
| `Scenarios.SucceededTaskFailsToRevert` | __tests__/flows/group-of-pinky-promises.test.ts:433-472 | The task that succeeded locally is checked once and never confirmed. Its always-false revert is called 5 times, and the failing task is reverted once. The error is `FatalErrorNotReverted` |

## Left out

- Promise and async scheduling, `setTimeout` delays and the mock executor: every callback result is an oracle value instead.
- The execution order of `all` versus `allSeq`: both are `Coordinator.All`, which runs the tasks one after another in input order. The tests check flows, not order, so the only difference between the two, which is scheduling, is not modelled.
- `PinkyPromise.from` and `PinkyPromise.config()`: they adapt or configure code that is not part of this model.
- The payloads and messages of the errors: only the error class is modelled.
- The value passed to `success`: the check is an oracle over its call number, which covers the tests' argument-less checks.
- Coordinator.All: requires the tasks of one group to be distinct objects. A pinky promise listed twice in one group would be driven twice through the same counters, and that aliasing is not modelled.
