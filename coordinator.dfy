/**
 The group coordinator over pinky promise objects: `PinkyPromise.all` and
 `PinkyPromise.allSeq`. Both are modelled by one sequential method, since the
 two differ only in how Phase A and the reverts are scheduled, not in what is
 called, how often, or what is decided.
 */
module Coordinator {
  import opened Task
  import opened Pinky
  import opened Group

  function ConfigsOf<V>(tasks: seq<PinkyPromise<V>>): seq<Config<V>>
  {
    seq(|tasks|, i requires 0 <= i < |tasks| => tasks[i].config)
  }

  function SpiesOf<V>(tasks: seq<PinkyPromise<V>>): seq<Calls>
    reads set t | t in tasks
  {
    seq(|tasks|, i requires 0 <= i < |tasks| reads set t | t in tasks => tasks[i].Spies())
  }

  predicate Distinct<V>(tasks: seq<PinkyPromise<V>>)
  {
    forall i, j :: 0 <= i < j < |tasks| ==> tasks[i] != tasks[j]
  }

  /** Phase A for every task, in input order. */
  method PrepareEach<V>(tasks: seq<PinkyPromise<V>>) returns (verdicts: seq<Verdict<V>>)
    requires Distinct(tasks)
    modifies set t | t in tasks
    ensures var prepared := PrepareAll(ConfigsOf(tasks), old(SpiesOf(tasks)));
            && |verdicts| == |tasks|
            && (forall j :: 0 <= j < |tasks| ==> verdicts[j] == prepared[j].0)
            && SpiesOf(tasks) == CallsAfter(prepared)
  {
    ghost var prepared := PrepareAll(ConfigsOf(tasks), SpiesOf(tasks));
    ghost var start := SpiesOf(tasks);
    verdicts := [];
    var i := 0;
    while i < |tasks|
      invariant 0 <= i <= |tasks| && |verdicts| == i
      invariant forall j :: 0 <= j < i ==> verdicts[j] == prepared[j].0 && tasks[j].Spies() == prepared[j].1
      invariant forall j :: i <= j < |tasks| ==> tasks[j].Spies() == start[j]
    {
      var verdict := tasks[i].Execute();
      verdicts := verdicts + [verdict];
      i := i + 1;
    }
  }

  /** Phase B for every task: the group confirmation; tells whether every check passed. */
  method ConfirmEach<V>(tasks: seq<PinkyPromise<V>>) returns (allConfirmed: bool)
    requires Distinct(tasks)
    modifies set t | t in tasks
    ensures var confirmed := ConfirmAll(ConfigsOf(tasks), old(SpiesOf(tasks)));
            && (allConfirmed <==> AllConfirmed(confirmed))
            && SpiesOf(tasks) == CallsAfter(confirmed)
  {
    ghost var confirmed := ConfirmAll(ConfigsOf(tasks), SpiesOf(tasks));
    ghost var start := SpiesOf(tasks);
    allConfirmed := true;
    var i := 0;
    while i < |tasks|
      invariant 0 <= i <= |tasks|
      invariant forall j :: 0 <= j < i ==> tasks[j].Spies() == confirmed[j].1
      invariant forall j :: i <= j < |tasks| ==> tasks[j].Spies() == start[j]
      invariant allConfirmed <==> forall j :: 0 <= j < i ==> confirmed[j].0
    {
      var ok := tasks[i].ConfirmSuccess();
      allConfirmed := allConfirmed && ok;
      i := i + 1;
    }
  }

  /** Compensation of every task, in input order. */
  method RevertEach<V>(tasks: seq<PinkyPromise<V>>) returns (outcomes: seq<Compensation>)
    requires Distinct(tasks)
    modifies set t | t in tasks
    ensures var compensated := CompensateAll(ConfigsOf(tasks), old(SpiesOf(tasks)));
            && outcomes == seq(|compensated|, j requires 0 <= j < |compensated| => compensated[j].0)
            && SpiesOf(tasks) == CallsAfter(compensated)
  {
    ghost var compensated := CompensateAll(ConfigsOf(tasks), SpiesOf(tasks));
    ghost var start := SpiesOf(tasks);
    outcomes := [];
    var i := 0;
    while i < |tasks|
      invariant 0 <= i <= |tasks| && |outcomes| == i
      invariant forall j :: 0 <= j < i ==> outcomes[j] == compensated[j].0 && tasks[j].Spies() == compensated[j].1
      invariant forall j :: i <= j < |tasks| ==> tasks[j].Spies() == start[j]
    {
      var outcome := tasks[i].Revert();
      outcomes := outcomes + [outcome];
      i := i + 1;
    }
  }

  /**
   Run a group of pinky promises: Phase A for each, then either the group
   confirmation and the ordered values, or compensation of every task and
   the classified error.
   */
  method All<V>(tasks: seq<PinkyPromise<V>>) returns (result: GroupResult<V>)
    requires Distinct(tasks)
    modifies set t | t in tasks
    ensures result == RunGroup(ConfigsOf(tasks), old(SpiesOf(tasks))).0
    ensures SpiesOf(tasks) == RunGroup(ConfigsOf(tasks), old(SpiesOf(tasks))).1
  {
    ghost var prepared := PrepareAll(ConfigsOf(tasks), SpiesOf(tasks));
    var verdicts := PrepareEach(tasks);
    var allSucceeded := forall j :: 0 <= j < |verdicts| ==> verdicts[j].LocalSuccess?;
    assert allSucceeded <==> AllSucceeded(prepared);
    if allSucceeded {
      var allConfirmed := ConfirmEach(tasks);
      if allConfirmed {
        result := Committed(seq(|verdicts|, j requires 0 <= j < |verdicts| && verdicts[j].LocalSuccess? => verdicts[j].value));
        assert result.values == ValuesOf(prepared);
        return;
      }
    }
    var outcomes := RevertEach(tasks);
    result := Aborted(Classify(outcomes));
  }
}
