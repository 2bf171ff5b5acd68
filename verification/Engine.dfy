/** The methods of `ExecutionEngine`: the main loop, and how it starts and takes in a batch. */
module Engine {
  import opened Common
  import opened Plan
  import opened Context
  import opened NodeRun
  import opened Batch
  import opened Executor
  import opened Fates
  import Flow
  import Verdict

  /** One turn of the main loop. */
  method Turn(env: Env, wait: Wait, cuts: (nat, Context) -> Cut, plan: seq<PlanNode>, s: Report)
    returns (next: Report, go: Go)
    requires s.reached < |plan| && Completes(wait)
    ensures (next, go) == TurnOf(env, wait, cuts, plan, s)
  {
    var node := plan[s.reached];
    if exists d :: d in node.dependencies && d !in s.completed {
      return SkippedOf(node, s), Onward;
    }
    if s.context.accepted && node.fallbackFor.Some? {
      return UnneededOf(node, s), Onward;
    }
    var batch := NextBatch(plan, s);
    next, go := CallTurn(env, wait, cuts, batch, s);
  }

  /** The node at hand is called, in a batch or on its own. */
  method CallTurn(env: Env, wait: Wait, cuts: (nat, Context) -> Cut, batch: seq<PlanNode>, s: Report)
    returns (next: Report, go: Go)
    requires Completes(wait) && batch != []
    requires |batch| > 1 ==> |batch| <= s.context.budget.attempts - |s.context.attempts|
    ensures (next, go) == CallOf(env, wait, cuts, batch, s)
  {
    if |batch| > 1 {
      next, go := BatchTurn(env, wait, cuts, s, batch);
    } else {
      var single := SingleOf(env, batch[0], s);
      next, go := single.0, single.1;
    }
  }

  method NextBatch(plan: seq<PlanNode>, s: Report) returns (batch: seq<PlanNode>)
    requires s.reached < |plan|
    ensures batch == BatchAt(plan, s)
  {
    batch := ParallelBatch(plan, s.reached, s.completed, s.context);
  }

  /** A parallel batch: its results are taken in branch by branch, or its exception is passed on. */
  method BatchTurn(env: Env, wait: Wait, cuts: (nat, Context) -> Cut, s: Report, batch: seq<PlanNode>)
    returns (next: Report, go: Go)
    requires Completes(wait) && 0 < |batch| <= s.context.budget.attempts - |s.context.attempts|
    ensures (next, go) == BatchOf(env, wait, cuts, batch, s)
  {
    var end := RunBatch(env, wait, cuts, s.reached, batch, s.context);
    next, go := TakeInBatch(batch, s, end);
  }

  method TakeInBatch(batch: seq<PlanNode>, s: Report, end: BatchEnd) returns (next: Report, go: Go)
    requires |end.branches| == |batch| && (end.Done? ==> AllFinished(end.branches))
    ensures (next, go) == TakeIn(batch, s, end)
  {
    if end.Threw? {
      next, go := Strand(batch, s, end.branches), Raise;
    } else {
      next, go := MergeIn(batch, s, end);
    }
  }

  /** The batch returned: its contexts are merged and its results taken in. */
  method MergeIn(batch: seq<PlanNode>, s: Report, end: BatchEnd) returns (next: Report, go: Go)
    requires |end.branches| == |batch| && end.Done? && AllFinished(end.branches)
    ensures (next, go) == TakeIn(batch, s, end)
  {
    var merged := MergeBranches(s.context, end.branches);
    var t := Absorb(Tally(s.completed, s.flags, s.calls, false), batch, end.branches);
    next, go := Absorbed(batch, s, end, merged, t), if t.stop then Stop else Onward;
  }

  /**
   `execute`, for every executable plan, every adapter behaviour, and every completion and
   cancellation order, whether it returns a status or raises.  The report is that of the run the
   specification describes, in which
   - a node that depends on one without alternatives is called only after that one's call returned;
   - only nodes of the plan are called, and those that need approval only with it;
   - completion is closed under dependencies;
   - if adapters account for what they use, no budget field is exceeded in spite of all splitting and
     merging, and neither is the number of attempts but for one blank record for each node that met the
     deadline.
   It returns whenever no exception is unexpected, nobody cancels the run and the ledger keeps up, and its
   status is then a success exactly when the context was accepted and every node completed.
   */
  method Execute(env: Env, waits: nat -> Wait, cuts: (nat, Context) -> Cut, plan: seq<PlanNode>, start: Context)
    returns (r: Report)
    requires Executable(plan)
    requires forall t: nat :: Completes(waits(t))
    ensures r == RunOf(env, waits, cuts, plan, start)
    ensures Safe(env, cuts, plan, start, r)
    ensures r.status.Some? ==> Settled(plan, r)
    ensures Told(env, cuts, plan, r)
    ensures r.status.Some? ==> Over(plan, r) && Verdict.RunAnswers(env, cuts, plan, r) && Flow.Threaded(plan, start, r)
    ensures (forall t: nat :: AllCalm(env, waits(t), cuts)) ==> r.status.Some?
  {
    var s := Begin(start);
    var go := Onward;
    while s.reached < |plan| && go == Onward
      invariant s.reached <= |plan|
      invariant RunFrom(env, waits, cuts, plan, s, go) == RunOf(env, waits, cuts, plan, start)
      decreases |plan| - s.reached, go == Onward
    {
      s, go := Turn(env, waits(s.reached), cuts, plan, s);
    }
    RunIsSafe(env, waits, cuts, plan, start);
    Verdict.RunIsAnswered(env, waits, cuts, plan, start);
    Flow.RunIsThreaded(env, waits, cuts, plan, start);
    if go == Raise {
      return s;
    }
    var closed := CloseRun(s.context);
    r := s.(context := closed, status := Some(StatusOf(closed, s.flags)));
  }

}
