/**
 What became of each node of a run of `ExecutionEngine.execute`, and why: the run's completed nodes,
 calls, flags and status are accounted for node by node.
 */
module Fates {
  import opened Common
  import opened Plan
  import opened Context
  import opened NodeRun
  import opened Batch
  import opened Executor

  // ---- The calls of one node ---------------------------------------------------------------

  function CallsFor(calls: seq<Call>, id: NodeId): seq<Call> {
    if calls == [] then []
    else CallsFor(calls[..|calls| - 1], id) + if calls[|calls| - 1].id == id then [calls[|calls| - 1]] else []
  }

  lemma {:induction false} CallsForAppend(calls: seq<Call>, more: seq<Call>, id: NodeId)
    ensures CallsFor(calls + more, id) == CallsFor(calls, id) + CallsFor(more, id)
    decreases |more|
  {
    if more == [] {
      assert calls + more == calls;
    } else {
      var most := more[..|more| - 1];
      assert (calls + more)[..|calls + more| - 1] == calls + most;
      CallsForAppend(calls, most, id);
    }
  }

  lemma {:induction false} CallsForOwn(calls: seq<Call>, node: PlanNode, id: NodeId)
    requires CallsOf(calls, node)
    ensures CallsFor(calls, id) == if id == node.id then calls else []
    decreases |calls|
  {
    if calls != [] {
      CallsForOwn(calls[..|calls| - 1], node, id);
    }
  }

  lemma {:induction false} CallsForReturned(calls: seq<Call>, id: NodeId)
    ensures CallReturned(CallsFor(calls, id), id) <==> CallReturned(calls, id)
    decreases |calls|
  {
    if calls != [] {
      var most, last := calls[..|calls| - 1], calls[|calls| - 1];
      CallsForReturned(most, id);
      ReturnedAppend(most, [last], id);
      ReturnedAppend(CallsFor(most, id), if last.id == id then [last] else [], id);
      assert calls == most + [last];
    }
  }

  lemma ReturnedAppend(calls: seq<Call>, more: seq<Call>, id: NodeId)
    ensures CallReturned(calls + more, id) <==> CallReturned(calls, id) || CallReturned(more, id)
  {
    if CallReturned(calls + more, id) {
      var i :| 0 <= i < |calls + more| && (calls + more)[i].id == id && (calls + more)[i].returned;
      if i >= |calls| {
        assert more[i - |calls|] == (calls + more)[i];
      }
    }
    if CallReturned(calls, id) || CallReturned(more, id) {
      CallsGrow(calls, more, id);
    }
  }

  // ---- What is told of a node --------------------------------------------------------------

  predicate Fed(node: PlanNode, completed: set<NodeId>) {
    forall d :: d in node.dependencies ==> d in completed
  }

  /** How the branch of a node ended, and whether that completed the node. */
  ghost predicate Branched(env: Env, cut: Cut, tick: nat, node: PlanNode, ctx: Context, end: Branch, struck: bool,
                           own: seq<Call>, done: bool) {
    && node.group.Some? && !node.requiresApproval && |ctx.attempts| < ctx.budget.attempts
    && end == (if struck then HitBy(node, ctx, RunNode(env, tick, node, ctx), cut) else AsIs(RunNode(env, tick, node, ctx)))
    && end.ended.Finished? && own == end.calls
    && (end.cancelled ==> struck)
    && (done <==> end.cancelled || CallReturned(own, node.id))
  }

  /**
   What a node's fate says of it.  `fed` says whether its dependencies are completed in the end, `own`
   are the calls it made in the whole run, and `done` says whether it is completed in the end.
   */
  ghost predicate Explains(env: Env, cuts: (nat, Context) -> Cut, tick: nat, node: PlanNode, fate: Fate,
                           fed: bool, own: seq<Call>, done: bool) {
    match fate
    case Skipped => !fed && own == [] && !done
    case Unneeded(ctx) => fed && ctx.accepted && node.fallbackFor.Some? && own == [] && done
    case Ran(ctx, run) =>
      && fed && !(ctx.accepted && node.fallbackFor.Some?)
      && run == RunNode(env, tick, node, ctx) && run.ended.Finished? && own == run.calls
      && (done <==> CallReturned(own, node.id))
    case Grouped(ctx, end, struck) =>
      && fed && !(ctx.accepted && node.fallbackFor.Some?)
      && Branched(env, cuts(tick, ctx), tick, node, ctx, end, struck, own, done)
  }

  /** The branch that made the engine cancel another one of its group was not cancelled, and it stopped the run or won. */
  ghost predicate Cause(plan: seq<PlanNode>, fates: seq<Fate>, i: nat, j: nat) {
    && i < |fates| <= |plan| && j < |fates|
    && fates[i].Grouped? && fates[j].Grouped? && !fates[j].struck
    && plan[j].group == plan[i].group && fates[j].ctx.accepted == fates[i].ctx.accepted
    && fates[j].end.ended.Finished?
    && (|| fates[j].end.ended.exec.stop
        || (&& fates[j].end.ended.exec.completed && plan[j].stopOnAcceptance
            && fates[j].end.after.accepted && !fates[i].ctx.accepted))
  }

  ghost predicate HasCause(plan: seq<PlanNode>, fates: seq<Fate>, i: nat) {
    exists j :: Cause(plan, fates, i, j)
  }

  ghost predicate Explained(env: Env, cuts: (nat, Context) -> Cut, plan: seq<PlanNode>, r: Report, i: nat)
    requires i < |plan| && i < |r.fates|
  {
    && Explains(env, cuts, i, plan[i], r.fates[i], Fed(plan[i], r.completed), CallsFor(r.calls, plan[i].id),
                plan[i].id in r.completed)
    && (r.fates[i].Grouped? && r.fates[i].struck ==> HasCause(plan, r.fates, i))
  }

  /** Every node below `reached` is explained, and nothing else is completed. */
  ghost predicate Told(env: Env, cuts: (nat, Context) -> Cut, plan: seq<PlanNode>, r: Report) {
    && |r.fates| == r.reached <= |plan|
    && r.completed <= Ids(plan[..r.reached])
    && (forall i :: 0 <= i < r.reached ==> Explained(env, cuts, plan, r, i))
  }

  /** Nodes from `reached` on have not been called yet. */
  ghost predicate NoneAhead(plan: seq<PlanNode>, r: Report) {
    r.reached <= |plan| && forall id :: id !in Ids(plan[..r.reached]) ==> CallsFor(r.calls, id) == []
  }

  // ---- What was told stays true ------------------------------------------------------------

  /** For the nodes already dealt with, nothing changes. */
  ghost predicate Extends(plan: seq<PlanNode>, s: Report, next: Report)
    requires s.reached <= |plan|
  {
    && s.fates <= next.fates
    && (forall id :: id in Ids(plan[..s.reached]) ==>
          (id in next.completed <==> id in s.completed) && CallsFor(next.calls, id) == CallsFor(s.calls, id))
  }

  lemma StaysExplained(env: Env, cuts: (nat, Context) -> Cut, plan: seq<PlanNode>, s: Report, next: Report, i: nat)
    requires Executable(plan) && Told(env, cuts, plan, s) && Extends(plan, s, next) && i < s.reached
    requires |next.fates| <= |plan|
    ensures Explained(env, cuts, plan, next, i)
  {
    assert Explained(env, cuts, plan, s, i);
    PrefixIds(plan, i, s.reached);
    assert plan[i] in plan[..s.reached];
    assert Fed(plan[i], next.completed) <==> Fed(plan[i], s.completed);
    if s.fates[i].Grouped? && s.fates[i].struck {
      var j :| Cause(plan, s.fates, i, j);
      assert Cause(plan, next.fates, i, j);
    }
  }

  /** The next state is told if the nodes that the turn dealt with are. */
  lemma TellOn(env: Env, cuts: (nat, Context) -> Cut, plan: seq<PlanNode>, s: Report, next: Report)
    requires Executable(plan) && Told(env, cuts, plan, s) && Extends(plan, s, next)
    requires s.reached <= next.reached == |next.fates| <= |plan| && next.completed <= Ids(plan[..next.reached])
    requires forall i :: s.reached <= i < next.reached ==> Explained(env, cuts, plan, next, i)
    ensures Told(env, cuts, plan, next)
  {
    forall i | 0 <= i < next.reached ensures Explained(env, cuts, plan, next, i) {
      if i < s.reached {
        StaysExplained(env, cuts, plan, s, next, i);
      }
    }
  }

  // ---- One node on its own -----------------------------------------------------------------

  /** A turn that dealt with one node, which made the calls `more`. */
  ghost predicate OneOn(plan: seq<PlanNode>, s: Report, next: Report, more: seq<Call>) {
    && s.reached < |plan| && CallsOf(more, plan[s.reached]) && next.calls == s.calls + more
    && s.completed <= next.completed <= s.completed + {plan[s.reached].id}
  }

  lemma OneExtends(plan: seq<PlanNode>, s: Report, next: Report, more: seq<Call>)
    requires UniqueIds(plan) && OneOn(plan, s, next, more) && s.fates <= next.fates
    ensures Extends(plan, s, next)
  {
    NotYet(plan, s.reached, s.reached);
    forall id | id in Ids(plan[..s.reached])
      ensures CallsFor(next.calls, id) == CallsFor(s.calls, id)
    {
      CallsForAppend(s.calls, more, id);
      CallsForOwn(more, plan[s.reached], id);
    }
  }

  lemma OneAhead(plan: seq<PlanNode>, s: Report, next: Report, more: seq<Call>)
    requires UniqueIds(plan) && OneOn(plan, s, next, more) && NoneAhead(plan, s) && s.completed <= Ids(plan[..s.reached])
    requires next.reached == s.reached + 1
    ensures NoneAhead(plan, next) && next.completed <= Ids(plan[..next.reached])
    ensures CallsFor(next.calls, plan[s.reached].id) == more
    ensures plan[s.reached].id !in s.completed
  {
    NotYet(plan, s.reached, s.reached);
    PrefixIds(plan, s.reached, next.reached);
    assert plan[s.reached] in plan[..next.reached];
    forall id | id !in Ids(plan[..s.reached])
      ensures CallsFor(next.calls, id) == if id == plan[s.reached].id then more else []
    {
      CallsForAppend(s.calls, more, id);
      CallsForOwn(more, plan[s.reached], id);
    }
  }

  /** Dependencies come first, so the turn's own completion does not feed its node. */
  lemma FedBefore(plan: seq<PlanNode>, s: Report, next: Report, more: seq<Call>)
    requires Executable(plan) && OneOn(plan, s, next, more)
    ensures Fed(plan[s.reached], next.completed) <==> Fed(plan[s.reached], s.completed)
  {
    NotYet(plan, s.reached, s.reached);
  }

  /** One node was dealt with and explained. */
  lemma OneTells(env: Env, cuts: (nat, Context) -> Cut, plan: seq<PlanNode>, s: Report, next: Report, more: seq<Call>, fate: Fate)
    requires Executable(plan) && Told(env, cuts, plan, s) && NoneAhead(plan, s) && OneOn(plan, s, next, more)
    requires next.reached == s.reached + 1 && next.fates == s.fates + [fate] && !fate.Grouped?
    requires Explains(env, cuts, s.reached, plan[s.reached], fate, Fed(plan[s.reached], s.completed), more,
                      plan[s.reached].id in next.completed)
    ensures Told(env, cuts, plan, next) && NoneAhead(plan, next)
  {
    OneExtends(plan, s, next, more);
    OneAhead(plan, s, next, more);
    FedBefore(plan, s, next, more);
    assert Explained(env, cuts, plan, next, s.reached);
    TellOn(env, cuts, plan, s, next);
  }

  lemma SingleTells(env: Env, cuts: (nat, Context) -> Cut, plan: seq<PlanNode>, s: Report)
    requires Executable(plan) && s.reached < |plan| && Told(env, cuts, plan, s) && NoneAhead(plan, s)
    requires Fed(plan[s.reached], s.completed) && !(s.context.accepted && plan[s.reached].fallbackFor.Some?)
    ensures Tells(env, cuts, plan, SingleOf(env, plan[s.reached], s))
  {
    var node, next := plan[s.reached], SingleOf(env, plan[s.reached], s);
    var run := RunNode(env, s.reached, node, s.context);
    NodeShape(env, s.reached, node, s.context);
    NotYet(plan, s.reached, s.reached);
    if run.ended.Finished? {
      OneTells(env, cuts, plan, s, next.0, run.calls, Ran(s.context, run));
    } else {
      OneExtends(plan, s, next.0, run.calls);
      TellOn(env, cuts, plan, s, next.0);
    }
  }

  // ---- A batch -----------------------------------------------------------------------------

  lemma {:induction false} GatherOthers(calls: seq<Call>, batch: seq<PlanNode>, branches: seq<Branch>, n: nat, id: NodeId)
    requires n <= |branches| && AllBehave(batch, branches)
    requires forall k :: 0 <= k < n ==> batch[k].id != id
    ensures CallsFor(Gather(calls, branches, n), id) == CallsFor(calls, id)
    decreases n
  {
    if n > 0 {
      GatherOthers(calls, batch, branches, n - 1, id);
      GatherOthersLast(calls, batch, branches, n, id);
    }
  }

  lemma {:induction false} GatherOwn(calls: seq<Call>, batch: seq<PlanNode>, branches: seq<Branch>, n: nat, k: nat)
    requires k < n <= |branches| && AllBehave(batch, branches) && UniqueIds(batch)
    ensures CallsFor(Gather(calls, branches, n), batch[k].id) == CallsFor(calls, batch[k].id) + branches[k].calls
    decreases n
  {
    if k < n - 1 {
      GatherOwn(calls, batch, branches, n - 1, k);
      GatherOthersLast(calls, batch, branches, n, batch[k].id);
    } else {
      GatherOthers(calls, batch, branches, k, batch[k].id);
      GatherOwnLast(calls, batch, branches, k);
    }
  }

  lemma GatherOthersLast(calls: seq<Call>, batch: seq<PlanNode>, branches: seq<Branch>, n: nat, id: NodeId)
    requires 0 < n <= |branches| && AllBehave(batch, branches) && batch[n - 1].id != id
    ensures CallsFor(Gather(calls, branches, n), id) == CallsFor(Gather(calls, branches, n - 1), id)
  {
    CallsForAppend(Gather(calls, branches, n - 1), branches[n - 1].calls, id);
    assert Behaves(batch[n - 1], branches[n - 1]);
    CallsForOwn(branches[n - 1].calls, batch[n - 1], id);
  }

  lemma GatherOwnLast(calls: seq<Call>, batch: seq<PlanNode>, branches: seq<Branch>, k: nat)
    requires k < |branches| && AllBehave(batch, branches)
    ensures CallsFor(Gather(calls, branches, k + 1), batch[k].id) ==
            CallsFor(Gather(calls, branches, k), batch[k].id) + branches[k].calls
  {
    CallsForAppend(Gather(calls, branches, k), branches[k].calls, batch[k].id);
    assert Behaves(batch[k], branches[k]);
    CallsForOwn(branches[k].calls, batch[k], batch[k].id);
  }

  /** The tally completes exactly the nodes whose branches did. */
  lemma {:induction false} TallyCompletes(start: Tally, batch: seq<PlanNode>, branches: seq<Branch>, n: nat, id: NodeId)
    requires n <= |branches| == |batch| && AllFinished(branches)
    ensures id in TallyOf(start, batch, branches, n).completed <==>
              id in start.completed || exists k :: 0 <= k < n && batch[k].id == id && branches[k].ended.exec.completed
    decreases n
  {
    if n > 0 {
      TallyCompletes(start, batch, branches, n - 1, id);
    }
  }

  /** The nodes of the batch are next in the plan, and it may start. */
  ghost predicate InBatch(plan: seq<PlanNode>, s: Report, batch: seq<PlanNode>) {
    && |batch| > 1 && s.reached + |batch| <= |plan| && batch == plan[s.reached..s.reached + |batch|]
    && plan[s.reached].group.Some? && |batch| <= s.context.budget.attempts - |s.context.attempts|
    && (forall k :: 0 <= k < |batch| ==> Joins(plan[s.reached], batch[k], s.completed, s.context))
  }

  lemma BatchIds(plan: seq<PlanNode>, index: nat, batch: seq<PlanNode>)
    requires UniqueIds(plan) && index + |batch| <= |plan| && batch == plan[index..index + |batch|]
    ensures UniqueIds(batch) && Ids(plan[..index + |batch|]) == Ids(plan[..index]) + Ids(batch)
    ensures Ids(plan[..index]) !! Ids(batch)
  {
    assert plan[..index + |batch|] == plan[..index] + batch;
    forall n | n in batch ensures n.id !in Ids(plan[..index]) {
      var k :| 0 <= k < |batch| && batch[k] == n;
      NotYet(plan, index, index + k);
    }
  }

  lemma BatchExtends(plan: seq<PlanNode>, s: Report, next: Report, batch: seq<PlanNode>, branches: seq<Branch>)
    requires UniqueIds(plan) && s.reached + |batch| <= |plan| && batch == plan[s.reached..s.reached + |batch|]
    requires AllBehave(batch, branches) && s.fates <= next.fates
    requires next.calls == Gather(s.calls, branches, |batch|)
    requires s.completed <= next.completed <= s.completed + Ids(batch)
    ensures Extends(plan, s, next)
  {
    BatchIds(plan, s.reached, batch);
    forall id | id in Ids(plan[..s.reached])
      ensures CallsFor(next.calls, id) == CallsFor(s.calls, id)
    {
      forall k | 0 <= k < |batch| ensures batch[k].id != id {
        assert batch[k] in batch;
      }
      GatherOthers(s.calls, batch, branches, |batch|, id);
    }
  }

  lemma BatchAhead(plan: seq<PlanNode>, s: Report, next: Report, batch: seq<PlanNode>, branches: seq<Branch>)
    requires UniqueIds(plan) && s.reached + |batch| <= |plan| && batch == plan[s.reached..s.reached + |batch|]
    requires AllBehave(batch, branches) && NoneAhead(plan, s)
    requires next.calls == Gather(s.calls, branches, |batch|) && next.reached == s.reached + |batch|
    ensures NoneAhead(plan, next)
    ensures forall k :: 0 <= k < |batch| ==> CallsFor(next.calls, batch[k].id) == branches[k].calls
  {
    BatchIds(plan, s.reached, batch);
    forall id | id !in Ids(plan[..next.reached]) ensures CallsFor(next.calls, id) == [] {
      forall k | 0 <= k < |batch| ensures batch[k].id != id {
        assert batch[k] in batch;
      }
      GatherOthers(s.calls, batch, branches, |batch|, id);
    }
    forall k | 0 <= k < |batch| ensures CallsFor(next.calls, batch[k].id) == branches[k].calls {
      assert batch[k] in batch;
      GatherOwn(s.calls, batch, branches, |batch|, k);
    }
  }

  /** What a branch of a batch shows of its node. */
  lemma BranchTold(env: Env, tick: nat, node: PlanNode, ctx: Context, cut: Cut, struck: bool)
    requires node.group.Some? && !node.requiresApproval && |ctx.attempts| < ctx.budget.attempts
    ensures var t := MakeTask(env, tick, node, ctx, cut); var b := if struck then t.hit else t.alone;
            b.ended.Finished? ==> Branched(env, cut, tick, node, ctx, b, struck, b.calls, b.ended.exec.completed)
  {
    BranchCompletes(env, tick, node, ctx, cut);
  }

  lemma TaskTold(env: Env, cuts: (nat, Context) -> Cut, index: nat, batch: seq<PlanNode>, ctx: Context, k: nat, struck: bool)
    requires k < |batch| && batch[k].group.Some? && !batch[k].requiresApproval
    requires |BranchContext(ctx, |batch|, k).attempts| < BranchContext(ctx, |batch|, k).budget.attempts
    ensures var t, own := TaskAt(env, cuts, index, batch, ctx, k), BranchContext(ctx, |batch|, k);
            var b := if struck then t.hit else t.alone;
            b.ended.Finished? ==>
              Branched(env, cuts(index + k, own), index + k, batch[k], own, b, struck, b.calls, b.ended.exec.completed)
  {
    var own := BranchContext(ctx, |batch|, k);
    BranchTold(env, index + k, batch[k], own, cuts(index + k, own), struck);
  }

  /** How branch `k` ended. */
  lemma EndAt(env: Env, wait: Wait, cuts: (nat, Context) -> Cut, index: nat, batch: seq<PlanNode>, ctx: Context, k: nat)
    requires Completes(wait) && k < |batch|
    ensures var end, t := EndOf(TasksOf(env, cuts, index, batch, ctx), ctx.accepted, wait), TaskAt(env, cuts, index, batch, ctx, k);
            && end.branches[k] == (if k in end.struck then t.hit else t.alone)
            && (end.Done? ==> end.branches[k].ended.Finished?)
  {
    var tasks := TasksOf(env, cuts, index, batch, ctx);
    assert tasks[k] == TaskAt(env, cuts, index, batch, ctx, k);
  }

  lemma BranchIsTold(env: Env, wait: Wait, cuts: (nat, Context) -> Cut, index: nat, batch: seq<PlanNode>, ctx: Context, k: nat)
    requires Completes(wait) && k < |batch| <= ctx.budget.attempts - |ctx.attempts|
    requires batch[k].group.Some? && !batch[k].requiresApproval
    requires EndOf(TasksOf(env, cuts, index, batch, ctx), ctx.accepted, wait).Done?
    ensures var own, end := BranchContext(ctx, |batch|, k), EndOf(TasksOf(env, cuts, index, batch, ctx), ctx.accepted, wait);
            Branched(env, cuts(index + k, own), index + k, batch[k], own, end.branches[k], k in end.struck,
                     end.branches[k].calls, end.branches[k].ended.exec.completed)
  {
    EndAt(env, wait, cuts, index, batch, ctx, k);
    var end := EndOf(TasksOf(env, cuts, index, batch, ctx), ctx.accepted, wait);
    BranchHasRoom(ctx, |batch|, k);
    TaskTold(env, cuts, index, batch, ctx, k, k in end.struck);
  }

  ghost predicate SomeDecides(batch: seq<PlanNode>, branches: seq<Branch>, struck: set<nat>, accepted: bool)
    requires |branches| == |batch|
  {
    exists j: nat :: j < |batch| && j !in struck && Decides(batch[j], branches[j], accepted)
  }

  /** Whoever was cancelled in a returned batch has a cause. */
  lemma BatchCause(env: Env, wait: Wait, cuts: (nat, Context) -> Cut, index: nat, batch: seq<PlanNode>, ctx: Context)
    requires Completes(wait)
    ensures var end := EndOf(TasksOf(env, cuts, index, batch, ctx), ctx.accepted, wait);
            end.Done? && end.struck != {} ==> SomeDecides(batch, end.branches, end.struck, ctx.accepted)
  {
    var tasks := TasksOf(env, cuts, index, batch, ctx);
    var end := EndOf(tasks, ctx.accepted, wait);
    StruckHasCause(tasks, ctx.accepted, wait, 0, Indices(|tasks|));
    if end.Done? && end.struck != {} {
      var j :| j in Indices(|tasks|) - end.struck && j < |tasks| && EndsOthers(tasks[j].node, tasks[j].alone, ctx.accepted);
      assert end.branches[j] == tasks[j].alone && end.branches[j].ended.Finished?;
    }
  }

  /** What is known of a branch in the end. */
  ghost predicate BranchFact(env: Env, cuts: (nat, Context) -> Cut, tick: nat, node: PlanNode, own: Context, b: Branch, struck: bool) {
    b.ended.Finished? && Branched(env, cuts(tick, own), tick, node, own, b, struck, b.calls, b.ended.exec.completed)
  }

  /** What is known of all branches of a batch that returned. */
  ghost predicate BatchFacts(env: Env, cuts: (nat, Context) -> Cut, index: nat, batch: seq<PlanNode>, own: seq<Context>,
                             accepted: bool, branches: seq<Branch>, struck: set<nat>)
  {
    && |own| == |batch| && AllBehave(batch, branches) && AllFinished(branches)
    && (forall k :: 0 <= k < |batch| ==>
          own[k].accepted == accepted && BranchFact(env, cuts, index + k, batch[k], own[k], branches[k], k in struck))
    && (struck != {} ==> SomeDecides(batch, branches, struck, accepted))
  }

  lemma ReturnedBatch(env: Env, wait: Wait, cuts: (nat, Context) -> Cut, index: nat, batch: seq<PlanNode>, ctx: Context)
    requires Completes(wait) && 0 < |batch| <= ctx.budget.attempts - |ctx.attempts|
    requires forall k :: 0 <= k < |batch| ==> batch[k].group.Some? && !batch[k].requiresApproval
    ensures var end := EndOf(TasksOf(env, cuts, index, batch, ctx), ctx.accepted, wait);
            end.Done? ==>
              BatchFacts(env, cuts, index, batch, BranchContexts(ctx, |batch|), ctx.accepted, end.branches, end.struck)
  {
    var end := EndOf(TasksOf(env, cuts, index, batch, ctx), ctx.accepted, wait);
    if end.Done? {
      BatchOutcome(env, wait, cuts, index, batch, ctx);
      BatchCause(env, wait, cuts, index, batch, ctx);
      var own := BranchContexts(ctx, |batch|);
      forall k | 0 <= k < |batch|
        ensures own[k].accepted == ctx.accepted
        ensures BranchFact(env, cuts, index + k, batch[k], own[k], end.branches[k], k in end.struck)
      {
        EndAt(env, wait, cuts, index, batch, ctx, k);
        BranchIsTold(env, wait, cuts, index, batch, ctx, k);
      }
    }
  }

  lemma FatesOfBatch(own: seq<Context>, fates: seq<Fate>, branches: seq<Branch>, struck: set<nat>, k: nat)
    requires k < |branches| == |own|
    ensures (fates + BatchFates(own, branches, struck))[|fates| + k] == Grouped(own[k], branches[k], k in struck)
  {
  }

  lemma CauseInBatch(plan: seq<PlanNode>, fates: seq<Fate>, own: seq<Context>, accepted: bool, batch: seq<PlanNode>,
                     branches: seq<Branch>, struck: set<nat>, k: nat)
    requires |fates| + |batch| <= |plan| && batch == plan[|fates|..|fates| + |batch|] && |branches| == |batch| == |own|
    requires k < |batch| && (forall j :: 0 <= j < |batch| ==> batch[j].group == batch[k].group && own[j].accepted == accepted)
    requires SomeDecides(batch, branches, struck, accepted)
    ensures HasCause(plan, fates + BatchFates(own, branches, struck), |fates| + k)
  {
    var j: nat :| j < |batch| && j !in struck && Decides(batch[j], branches[j], accepted);
    FatesOfBatch(own, fates, branches, struck, j);
    FatesOfBatch(own, fates, branches, struck, k);
    assert Cause(plan, fates + BatchFates(own, branches, struck), |fates| + k, |fates| + j);
  }

  /** What taking in a returned batch makes of the state. */
  ghost predicate Taken(plan: seq<PlanNode>, s: Report, batch: seq<PlanNode>, own: seq<Context>, branches: seq<Branch>,
                        struck: set<nat>, next: Report)
    requires |branches| == |batch| == |own| && AllFinished(branches)
  {
    && next.reached == s.reached + |batch|
    && next.fates == s.fates + BatchFates(own, branches, struck)
    && next.calls == Gather(s.calls, branches, |batch|)
    && s.completed <= next.completed <= s.completed + Ids(batch)
    && (forall k :: 0 <= k < |batch| ==> (batch[k].id in next.completed <==> branches[k].ended.exec.completed))
  }

  /** Node `i` is a member of a batch that returned, in the state after it. */
  ghost predicate Member(env: Env, cuts: (nat, Context) -> Cut, plan: seq<PlanNode>, r: Report, i: nat, own: Context, b: Branch,
                         struck: bool)
  {
    && i < |r.fates| && i < |plan| && r.fates[i] == Grouped(own, b, struck)
    && BranchFact(env, cuts, i, plan[i], own, b, struck) && CallsFor(r.calls, plan[i].id) == b.calls
    && Fed(plan[i], r.completed) && !(own.accepted && plan[i].fallbackFor.Some?)
    && (plan[i].id in r.completed <==> b.ended.exec.completed)
  }

  /** A member is explained, if it has a cause should it have been cancelled. */
  lemma MemberTold(env: Env, cuts: (nat, Context) -> Cut, plan: seq<PlanNode>, r: Report, i: nat, own: Context, b: Branch, struck: bool)
    requires Member(env, cuts, plan, r, i, own, b, struck) && (struck ==> HasCause(plan, r.fates, i))
    ensures Explained(env, cuts, plan, r, i)
  {
  }

  lemma FactsOfMember(env: Env, cuts: (nat, Context) -> Cut, index: nat, batch: seq<PlanNode>, own: seq<Context>, accepted: bool,
                      branches: seq<Branch>, struck: set<nat>, k: nat)
    requires BatchFacts(env, cuts, index, batch, own, accepted, branches, struck) && k < |batch|
    ensures BranchFact(env, cuts, index + k, batch[k], own[k], branches[k], k in struck) && own[k].accepted == accepted
    ensures k in struck ==> SomeDecides(batch, branches, struck, accepted)
    ensures forall j :: 0 <= j < |batch| ==> own[j].accepted == accepted
  {
  }

  lemma IsMember(env: Env, cuts: (nat, Context) -> Cut, plan: seq<PlanNode>, s: Report, next: Report, own: seq<Context>,
                 batch: seq<PlanNode>, branches: seq<Branch>, struck: set<nat>, k: nat)
    requires InBatch(plan, s, batch) && |own| == |branches| == |batch| && AllFinished(branches)
    requires |s.fates| == s.reached && Taken(plan, s, batch, own, branches, struck, next) && k < |batch|
    requires BranchFact(env, cuts, s.reached + k, batch[k], own[k], branches[k], k in struck)
    requires own[k].accepted == s.context.accepted && CallsFor(next.calls, batch[k].id) == branches[k].calls
    ensures Member(env, cuts, plan, next, s.reached + k, own[k], branches[k], k in struck)
  {
    FatesOfBatch(own, s.fates, branches, struck, k);
    assert plan[s.reached + k] == batch[k];
    assert Joins(plan[s.reached], batch[k], s.completed, s.context);
  }

  lemma MemberCaused(plan: seq<PlanNode>, s: Report, next: Report, own: seq<Context>, batch: seq<PlanNode>,
                     branches: seq<Branch>, struck: set<nat>, k: nat)
    requires InBatch(plan, s, batch) && |own| == |branches| == |batch| && |s.fates| == s.reached && k < |batch|
    requires next.fates == s.fates + BatchFates(own, branches, struck)
    requires SomeDecides(batch, branches, struck, s.context.accepted)
    requires forall j :: 0 <= j < |batch| ==> own[j].accepted == s.context.accepted
    ensures HasCause(plan, next.fates, s.reached + k)
  {
    GroupOfBatch(plan, s, batch, k);
    CauseInBatch(plan, s.fates, own, s.context.accepted, batch, branches, struck, k);
  }

  lemma GroupOfBatch(plan: seq<PlanNode>, s: Report, batch: seq<PlanNode>, k: nat)
    requires InBatch(plan, s, batch) && k < |batch|
    ensures forall j :: 0 <= j < |batch| ==> batch[j].group == batch[k].group
  {
    forall j | 0 <= j < |batch| ensures batch[j].group == plan[s.reached].group {
      assert Joins(plan[s.reached], batch[j], s.completed, s.context);
    }
  }

  /** A batch that raises leaves the nodes before it as they were. */
  lemma ThrownTells(env: Env, cuts: (nat, Context) -> Cut, plan: seq<PlanNode>, s: Report, batch: seq<PlanNode>, end: BatchEnd)
    requires Executable(plan) && Told(env, cuts, plan, s) && NoneAhead(plan, s) && end.Threw?
    requires s.reached + |batch| <= |plan| && batch == plan[s.reached..s.reached + |batch|] && AllBehave(batch, end.branches)
    ensures Told(env, cuts, plan, TakeIn(batch, s, end).0)
  {
    var next := TakeIn(batch, s, end).0;
    BatchExtends(plan, s, next, batch, end.branches);
    TellOn(env, cuts, plan, s, next);
  }

  lemma MembersTold(env: Env, cuts: (nat, Context) -> Cut, plan: seq<PlanNode>, s: Report, next: Report, own: seq<Context>,
                    batch: seq<PlanNode>, branches: seq<Branch>, struck: set<nat>)
    requires InBatch(plan, s, batch) && BatchFacts(env, cuts, s.reached, batch, own, s.context.accepted, branches, struck)
    requires |s.fates| == s.reached && Taken(plan, s, batch, own, branches, struck, next)
    requires forall k :: 0 <= k < |batch| ==> CallsFor(next.calls, batch[k].id) == branches[k].calls
    ensures forall i :: s.reached <= i < next.reached ==> Explained(env, cuts, plan, next, i)
  {
    forall i | s.reached <= i < next.reached ensures Explained(env, cuts, plan, next, i) {
      var k := i - s.reached;
      FactsOfMember(env, cuts, s.reached, batch, own, s.context.accepted, branches, struck, k);
      IsMember(env, cuts, plan, s, next, own, batch, branches, struck, k);
      if k in struck {
        MemberCaused(plan, s, next, own, batch, branches, struck, k);
      }
      MemberTold(env, cuts, plan, next, s.reached + k, own[k], branches[k], k in struck);
    }
  }

  lemma TakenExtends(plan: seq<PlanNode>, s: Report, own: seq<Context>, batch: seq<PlanNode>, branches: seq<Branch>,
                     struck: set<nat>, next: Report)
    requires UniqueIds(plan) && s.reached + |batch| <= |plan| && batch == plan[s.reached..s.reached + |batch|]
    requires AllBehave(batch, branches) && AllFinished(branches) && NoneAhead(plan, s) && |own| == |batch|
    requires |s.fates| == s.reached && s.completed <= Ids(plan[..s.reached]) && Taken(plan, s, batch, own, branches, struck, next)
    ensures Extends(plan, s, next) && NoneAhead(plan, next)
    ensures |next.fates| == next.reached <= |plan| && next.completed <= Ids(plan[..next.reached])
    ensures forall k :: 0 <= k < |batch| ==> CallsFor(next.calls, batch[k].id) == branches[k].calls
  {
    BatchExtends(plan, s, next, batch, branches);
    BatchAhead(plan, s, next, batch, branches);
    BatchIds(plan, s.reached, batch);
  }

  lemma TakenTells(env: Env, cuts: (nat, Context) -> Cut, plan: seq<PlanNode>, s: Report, own: seq<Context>,
                   batch: seq<PlanNode>, branches: seq<Branch>, struck: set<nat>, next: Report)
    requires Executable(plan) && InBatch(plan, s, batch)
    requires BatchFacts(env, cuts, s.reached, batch, own, s.context.accepted, branches, struck)
    requires Told(env, cuts, plan, s) && NoneAhead(plan, s) && Taken(plan, s, batch, own, branches, struck, next)
    ensures Told(env, cuts, plan, next) && NoneAhead(plan, next)
  {
    TakenExtends(plan, s, own, batch, branches, struck, next);
    MembersTold(env, cuts, plan, s, next, own, batch, branches, struck);
    TellOn(env, cuts, plan, s, next);
  }

  /** A batch that ended explains its nodes if it returned, and keeps the other explanations. */
  lemma BatchTells(env: Env, cuts: (nat, Context) -> Cut, plan: seq<PlanNode>, s: Report, batch: seq<PlanNode>, end: BatchEnd)
    requires Executable(plan) && InBatch(plan, s, batch) && AllBehave(batch, end.branches)
    requires end.Done? ==> BatchFacts(env, cuts, s.reached, batch, BranchContexts(s.context, |batch|), s.context.accepted,
                                      end.branches, end.struck)
    requires Told(env, cuts, plan, s) && NoneAhead(plan, s)
    ensures Tells(env, cuts, plan, TakeIn(batch, s, end))
  {
    if end.Threw? {
      ThrownTells(env, cuts, plan, s, batch, end);
    } else {
      BatchTaken(plan, s, batch, end);
      TakenTells(env, cuts, plan, s, BranchContexts(s.context, |batch|), batch, end.branches, end.struck, TakeIn(batch, s, end).0);
    }
  }

  /** What holds after a turn. */
  ghost predicate Tells(env: Env, cuts: (nat, Context) -> Cut, plan: seq<PlanNode>, next: (Report, Go)) {
    Told(env, cuts, plan, next.0) && (next.1 != Raise ==> NoneAhead(plan, next.0))
  }

  /** What taking in a returned batch does to completion and calls. */
  lemma BatchTaken(plan: seq<PlanNode>, s: Report, batch: seq<PlanNode>, end: BatchEnd)
    requires UniqueIds(plan) && s.reached + |batch| <= |plan| && batch == plan[s.reached..s.reached + |batch|]
    requires |end.branches| == |batch| && end.Done? && AllFinished(end.branches) && s.completed <= Ids(plan[..s.reached])
    ensures Taken(plan, s, batch, BranchContexts(s.context, |batch|), end.branches, end.struck, TakeIn(batch, s, end).0)
  {
    var start := Tally(s.completed, s.flags, s.calls, false);
    TallyGathers(start, batch, end.branches, |batch|);
    BatchIds(plan, s.reached, batch);
    TallyIsExact(start, batch, end.branches);
  }

  lemma TallyIsExact(start: Tally, batch: seq<PlanNode>, branches: seq<Branch>)
    requires |branches| == |batch| && AllFinished(branches) && UniqueIds(batch) && start.completed !! Ids(batch)
    ensures var t := TallyOf(start, batch, branches, |batch|);
            && t.completed <= start.completed + Ids(batch)
            && (forall k :: 0 <= k < |batch| ==> (batch[k].id in t.completed <==> branches[k].ended.exec.completed))
  {
    var t := TallyOf(start, batch, branches, |batch|);
    forall id | id in t.completed ensures id in start.completed + Ids(batch) {
      TallyCompletes(start, batch, branches, |batch|, id);
    }
    forall k | 0 <= k < |batch| ensures batch[k].id in t.completed <==> branches[k].ended.exec.completed {
      TallyCompletes(start, batch, branches, |batch|, batch[k].id);
      assert batch[k] in batch;
    }
  }

  // ---- The run -----------------------------------------------------------------------------

  lemma GroupTells(env: Env, wait: Wait, cuts: (nat, Context) -> Cut, plan: seq<PlanNode>, s: Report, batch: seq<PlanNode>)
    requires Executable(plan) && s.reached < |plan| && Completes(wait) && Told(env, cuts, plan, s) && NoneAhead(plan, s)
    requires batch == BatchAt(plan, s) && |batch| > 1
    ensures Tells(env, cuts, plan, BatchOf(env, wait, cuts, batch, s))
  {
    BatchIsIn(plan, s, batch);
    BatchOutcome(env, wait, cuts, s.reached, batch, s.context);
    ReturnedBatch(env, wait, cuts, s.reached, batch, s.context);
    BatchTells(env, cuts, plan, s, batch, EndOf(TasksOf(env, cuts, s.reached, batch, s.context), s.context.accepted, wait));
  }

  lemma BatchIsIn(plan: seq<PlanNode>, s: Report, batch: seq<PlanNode>)
    requires s.reached < |plan| && batch == BatchAt(plan, s) && |batch| > 1
    ensures InBatch(plan, s, batch)
    ensures forall k :: 0 <= k < |batch| ==> batch[k].group.Some? && !batch[k].requiresApproval
  {
    BatchIsNext(plan, s, |batch|);
    forall k | 0 <= k < |batch| ensures batch[k].group.Some? && !batch[k].requiresApproval {
      assert Joins(plan[s.reached], batch[k], s.completed, s.context);
    }
  }

  lemma CallTells(env: Env, wait: Wait, cuts: (nat, Context) -> Cut, plan: seq<PlanNode>, s: Report, batch: seq<PlanNode>)
    requires Executable(plan) && s.reached < |plan| && Completes(wait) && Told(env, cuts, plan, s) && NoneAhead(plan, s)
    requires Fed(plan[s.reached], s.completed) && !(s.context.accepted && plan[s.reached].fallbackFor.Some?)
    requires batch == BatchAt(plan, s)
    ensures Tells(env, cuts, plan, CallOf(env, wait, cuts, batch, s))
  {
    if |batch| > 1 {
      GroupTells(env, wait, cuts, plan, s, batch);
    } else {
      SingleTells(env, cuts, plan, s);
    }
  }

  /** Every turn explains the nodes it deals with. */
  lemma TurnTells(env: Env, wait: Wait, cuts: (nat, Context) -> Cut, plan: seq<PlanNode>, s: Report)
    requires Executable(plan) && s.reached < |plan| && Completes(wait) && Told(env, cuts, plan, s) && NoneAhead(plan, s)
    ensures Tells(env, cuts, plan, TurnOf(env, wait, cuts, plan, s))
  {
    var node := plan[s.reached];
    NotYet(plan, s.reached, s.reached);
    if exists d :: d in node.dependencies && d !in s.completed {
      OneTells(env, cuts, plan, s, SkippedOf(node, s), [], Skipped);
    } else if s.context.accepted && node.fallbackFor.Some? {
      OneTells(env, cuts, plan, s, UnneededOf(node, s), [], Unneeded(s.context));
    } else {
      CallTells(env, wait, cuts, plan, s, BatchAt(plan, s));
    }
  }

  // ---- Flags and the end of the run --------------------------------------------------------

  function FateFlags(fate: Fate): Flags {
    match fate
    case Ran(_, run) => run.ended.Flags()
    case Grouped(_, end, _) => end.ended.Flags()
    case _ => NO_FLAGS
  }

  /** A node whose result ends the run. */
  predicate Halts(fate: Fate) {
    match fate
    case Ran(_, run) => run.ended.Finished? && run.ended.exec.stop
    case Grouped(_, end, _) => end.ended.Finished? && end.ended.exec.stop
    case _ => false
  }

  function FlagsOf(fates: seq<Fate>): Flags {
    if fates == [] then NO_FLAGS else FlagsOf(fates[..|fates| - 1]).Or(FateFlags(fates[|fates| - 1]))
  }

  lemma FlagsOfOne(fates: seq<Fate>, fate: Fate)
    ensures FlagsOf(fates + [fate]) == FlagsOf(fates).Or(FateFlags(fate))
  {
    assert (fates + [fate])[..|fates|] == fates;
  }

  lemma FlagsOfNext(fates: seq<Fate>, more: seq<Fate>, n: nat)
    requires n < |more|
    ensures FlagsOf(fates + more[..n + 1]) == FlagsOf(fates + more[..n]).Or(FateFlags(more[n]))
  {
    assert fates + more[..n + 1] == fates + more[..n] + [more[n]];
    FlagsOfOne(fates + more[..n], more[n]);
  }

  /** The flags of a batch are those of its nodes' fates. */
  lemma {:induction false} FlagsOfBatch(own: seq<Context>, fates: seq<Fate>, branches: seq<Branch>, struck: set<nat>, n: nat)
    requires n <= |branches| == |own|
    ensures FlagsOf(fates + BatchFates(own, branches, struck)[..n]) == AllFlags(FlagsOf(fates), branches, n)
    decreases n
  {
    var all := BatchFates(own, branches, struck);
    if n == 0 {
      assert fates + all[..0] == fates;
    } else {
      FlagsOfBatch(own, fates, branches, struck, n - 1);
      FlagsOfNext(fates, all, n - 1);
    }
  }

  lemma {:induction false} TallyStops(start: Tally, batch: seq<PlanNode>, branches: seq<Branch>, n: nat)
    requires n <= |branches| == |batch| && AllFinished(branches)
    ensures TallyOf(start, batch, branches, n).stop <==> start.stop || exists k :: 0 <= k < n && branches[k].ended.exec.stop
    decreases n
  {
    if n > 0 {
      TallyStops(start, batch, branches, n - 1);
    }
  }

  ghost predicate SomeHalts(fates: seq<Fate>) {
    exists i :: 0 <= i < |fates| && Halts(fates[i])
  }

  /** After a node that ends the run come at most members of its own group. */
  ghost predicate HaltsLast(plan: seq<PlanNode>, fates: seq<Fate>) {
    |fates| <= |plan| && forall i, j :: 0 <= i < j < |fates| && Halts(fates[i]) ==> Together(plan, fates, i, j)
  }

  predicate Together(plan: seq<PlanNode>, fates: seq<Fate>, i: nat, j: nat)
    requires i < |fates| <= |plan| && j < |fates|
  {
    fates[i].Grouped? && fates[j].Grouped? && plan[i].group == plan[j].group
  }

  /** The flags are exactly those of the nodes' fates, and the run ends exactly with one that ends it. */
  ghost predicate Reckoned(plan: seq<PlanNode>, s: Report, go: Go) {
    && s.flags == FlagsOf(s.fates) && HaltsLast(plan, s.fates)
    && (go == Stop <==> SomeHalts(s.fates))
  }

  lemma OneReckons(plan: seq<PlanNode>, s: Report, next: Report, fate: Fate)
    requires Reckoned(plan, s, Onward) && |s.fates| < |plan|
    requires next.fates == s.fates + [fate] && next.flags == s.flags.Or(FateFlags(fate))
    ensures Reckoned(plan, next, if Halts(fate) then Stop else Onward)
  {
    FlagsOfOne(s.fates, fate);
    assert next.fates[|s.fates|] == fate;
    forall i | 0 <= i < |s.fates| ensures !Halts(next.fates[i]) {
      assert next.fates[i] == s.fates[i];
    }
  }

  /** The fates that a returned batch adds. */
  function Added(s: Report, end: BatchEnd): (more: seq<Fate>)
    ensures |more| == |end.branches|
  {
    BatchFates(BranchContexts(s.context, |end.branches|), end.branches, end.struck)
  }

  lemma BatchFlags(s: Report, batch: seq<PlanNode>, end: BatchEnd)
    requires |end.branches| == |batch| && end.Done? && AllFinished(end.branches) && s.flags == FlagsOf(s.fates)
    ensures var next := TakeIn(batch, s, end).0; next.flags == FlagsOf(next.fates)
  {
    TallyGathers(Tally(s.completed, s.flags, s.calls, false), batch, end.branches, |batch|);
    FlagsOfBatch(BranchContexts(s.context, |batch|), s.fates, end.branches, end.struck, |batch|);
    assert Added(s, end)[..|batch|] == Added(s, end);
  }

  lemma BatchStops(s: Report, batch: seq<PlanNode>, end: BatchEnd)
    requires |end.branches| == |batch| && end.Done? && AllFinished(end.branches)
    ensures TakeIn(batch, s, end).1 == Stop <==> exists k :: 0 <= k < |batch| && Halts(Added(s, end)[k])
  {
    TallyStops(Tally(s.completed, s.flags, s.calls, false), batch, end.branches, |batch|);
    forall k | 0 <= k < |batch| ensures Halts(Added(s, end)[k]) <==> end.branches[k].ended.exec.stop {
      assert end.branches[k].ended.Finished?;
    }
  }

  lemma BatchReckons(plan: seq<PlanNode>, s: Report, batch: seq<PlanNode>, end: BatchEnd)
    requires Reckoned(plan, s, Onward) && |s.fates| == s.reached
    requires s.reached + |batch| <= |plan| && batch == plan[s.reached..s.reached + |batch|]
    requires |end.branches| == |batch| && end.Done? && AllFinished(end.branches)
    requires forall k :: 0 <= k < |batch| ==> batch[k].group == plan[s.reached].group
    ensures var next := TakeIn(batch, s, end); Reckoned(plan, next.0, next.1)
  {
    BatchFlags(s, batch, end);
    BatchStops(s, batch, end);
    BatchHalts(plan, s, batch, Added(s, end));
  }

  lemma BatchHalts(plan: seq<PlanNode>, s: Report, batch: seq<PlanNode>, more: seq<Fate>)
    requires Reckoned(plan, s, Onward) && |s.fates| == s.reached && |more| == |batch|
    requires s.reached + |batch| <= |plan| && batch == plan[s.reached..s.reached + |batch|]
    requires forall k :: 0 <= k < |batch| ==> more[k].Grouped? && batch[k].group == plan[s.reached].group
    ensures HaltsLast(plan, s.fates + more)
    ensures SomeHalts(s.fates + more) <==> exists k :: 0 <= k < |batch| && Halts(more[k])
  {
    var all := s.fates + more;
    forall i | 0 <= i < |s.fates| ensures !Halts(all[i]) {
      assert all[i] == s.fates[i];
    }
    forall i, j | 0 <= i < j < |all| && Halts(all[i]) ensures Together(plan, all, i, j) {
      assert plan[i] == batch[i - s.reached] && plan[j] == batch[j - s.reached];
    }
    if exists k :: 0 <= k < |batch| && Halts(more[k]) {
      var k :| 0 <= k < |batch| && Halts(more[k]);
      assert all[s.reached + k] == more[k];
    }
  }

  lemma SingleReckons(env: Env, plan: seq<PlanNode>, s: Report)
    requires s.reached < |plan| && |s.fates| == s.reached && Reckoned(plan, s, Onward)
    requires SingleOf(env, plan[s.reached], s).1 != Raise
    ensures var next := SingleOf(env, plan[s.reached], s); Reckoned(plan, next.0, next.1)
  {
    var next := SingleOf(env, plan[s.reached], s).0;
    OneReckons(plan, s, next, Ran(s.context, RunNode(env, s.reached, plan[s.reached], s.context)));
  }

  lemma OneGroup(plan: seq<PlanNode>, s: Report, batch: seq<PlanNode>)
    requires s.reached < |plan| && batch == BatchAt(plan, s) && |batch| > 1
    ensures forall k :: 0 <= k < |batch| ==> batch[k].group == plan[s.reached].group
  {
    BatchIsNext(plan, s, |batch|);
    forall k | 0 <= k < |batch| ensures batch[k].group == plan[s.reached].group {
      assert Joins(plan[s.reached], batch[k], s.completed, s.context);
    }
  }

  lemma GroupReckons(env: Env, wait: Wait, cuts: (nat, Context) -> Cut, plan: seq<PlanNode>, s: Report, batch: seq<PlanNode>)
    requires s.reached < |plan| && Completes(wait) && |s.fates| == s.reached && Reckoned(plan, s, Onward)
    requires batch == BatchAt(plan, s) && |batch| > 1 && BatchOf(env, wait, cuts, batch, s).1 != Raise
    ensures ReckonedAfter(plan, BatchOf(env, wait, cuts, batch, s))
  {
    OneGroup(plan, s, batch);
    EndReckons(plan, s, batch, EndOf(TasksOf(env, cuts, s.reached, batch, s.context), s.context.accepted, wait));
  }

  ghost predicate ReckonedAfter(plan: seq<PlanNode>, next: (Report, Go)) {
    Reckoned(plan, next.0, next.1)
  }

  lemma EndReckons(plan: seq<PlanNode>, s: Report, batch: seq<PlanNode>, end: BatchEnd)
    requires s.reached < |plan| && |s.fates| == s.reached && Reckoned(plan, s, Onward) && batch == BatchAt(plan, s)
    requires |end.branches| == |batch| && (end.Done? ==> AllFinished(end.branches)) && TakeIn(batch, s, end).1 != Raise
    requires forall k :: 0 <= k < |batch| ==> batch[k].group == plan[s.reached].group
    ensures ReckonedAfter(plan, TakeIn(batch, s, end))
  {
    BatchReckons(plan, s, batch, end);
  }

  lemma CallReckons(env: Env, wait: Wait, cuts: (nat, Context) -> Cut, plan: seq<PlanNode>, s: Report, batch: seq<PlanNode>)
    requires s.reached < |plan| && Completes(wait) && |s.fates| == s.reached && Reckoned(plan, s, Onward)
    requires batch == BatchAt(plan, s) && CallOf(env, wait, cuts, batch, s).1 != Raise
    ensures ReckonedAfter(plan, CallOf(env, wait, cuts, batch, s))
  {
    if |batch| > 1 {
      GroupReckons(env, wait, cuts, plan, s, batch);
    } else {
      SingleReckons(env, plan, s);
    }
  }

  lemma TurnReckons(env: Env, wait: Wait, cuts: (nat, Context) -> Cut, plan: seq<PlanNode>, s: Report)
    requires s.reached < |plan| && Completes(wait) && |s.fates| == s.reached && Reckoned(plan, s, Onward)
    requires TurnOf(env, wait, cuts, plan, s).1 != Raise
    ensures ReckonedAfter(plan, TurnOf(env, wait, cuts, plan, s))
  {
    var node := plan[s.reached];
    if exists d :: d in node.dependencies && d !in s.completed {
      OneReckons(plan, s, SkippedOf(node, s), Skipped);
    } else if s.context.accepted && node.fallbackFor.Some? {
      OneReckons(plan, s, UnneededOf(node, s), Unneeded(s.context));
    } else {
      CallReckons(env, wait, cuts, plan, s, BatchAt(plan, s));
    }
  }

  // ---- The run -----------------------------------------------------------------------------

  /** How a run that returned came to its end. */
  ghost predicate Over(plan: seq<PlanNode>, r: Report) {
    && NoneAhead(plan, r)
    && r.flags == FlagsOf(r.fates) && HaltsLast(plan, r.fates)
    && (r.reached < |plan| ==> SomeHalts(r.fates))
  }

  lemma {:induction false} RunTells(env: Env, waits: nat -> Wait, cuts: (nat, Context) -> Cut, plan: seq<PlanNode>, s: Report, go: Go)
    requires Executable(plan) && forall t: nat :: Completes(waits(t))
    requires Tells(env, cuts, plan, (s, go)) && s.status.None?
    requires go != Raise ==> Reckoned(plan, s, go)
    ensures var r := RunFrom(env, waits, cuts, plan, s, go);
            Told(env, cuts, plan, r) && (r.status.Some? ==> Over(plan, r))
    decreases |plan| - s.reached, go == Onward
  {
    if go == Raise {
    } else if s.reached == |plan| || go == Stop {
      CloseTells(env, cuts, plan, s, s.(context := CloseRun(s.context), status := Some(StatusOf(CloseRun(s.context), s.flags))));
    } else {
      var next := TurnOf(env, waits(s.reached), cuts, plan, s);
      TurnTells(env, waits(s.reached), cuts, plan, s);
      StatusIsLast(env, waits(s.reached), cuts, plan, s);
      if next.1 != Raise {
        TurnReckons(env, waits(s.reached), cuts, plan, s);
      }
      RunTells(env, waits, cuts, plan, next.0, next.1);
    }
  }

  /** Closing the run adds nothing to what is told of its nodes. */
  lemma CloseTells(env: Env, cuts: (nat, Context) -> Cut, plan: seq<PlanNode>, s: Report, r: Report)
    requires Told(env, cuts, plan, s) && r == s.(context := r.context, status := r.status)
    ensures Told(env, cuts, plan, r) && (NoneAhead(plan, s) ==> NoneAhead(plan, r))
  {
    forall i | 0 <= i < r.reached ensures Explained(env, cuts, plan, r, i) {
      assert Explained(env, cuts, plan, s, i);
    }
  }

  /** Every run, returning or raising, is told node by node. */
  lemma RunIsTold(env: Env, waits: nat -> Wait, cuts: (nat, Context) -> Cut, plan: seq<PlanNode>, start: Context)
    requires Executable(plan) && forall t: nat :: Completes(waits(t))
    ensures var r := RunOf(env, waits, cuts, plan, start);
            Told(env, cuts, plan, r) && (r.status.Some? ==> Over(plan, r))
  {
    RunTells(env, waits, cuts, plan, Begin(start), Onward);
  }

  // ---- What the telling amounts to ---------------------------------------------------------

  /** A node that was not needed, or was cut off by a cancellation, and so counts as completed without a result. */
  predicate Excused(fate: Fate) {
    fate.Unneeded? || (fate.Grouped? && fate.end.cancelled)
  }

  /**
   Why a node is completed, and why it is not: it is exactly if its own call returned, or it was an unneeded
   fallback, or an alternative cut off on account of another one of its group, which stopped the run or won.
   A node that was neither skipped for a dependency that is not completed nor completed leaves its flag.
   */
  lemma WhyCompleted(env: Env, cuts: (nat, Context) -> Cut, plan: seq<PlanNode>, r: Report, i: nat)
    requires Told(env, cuts, plan, r) && i < r.reached
    ensures plan[i].id in r.completed <==> CallReturned(r.calls, plan[i].id) || Excused(r.fates[i])
    ensures Excused(r.fates[i]) ==>
              || (r.fates[i].Unneeded? && r.fates[i].ctx.accepted && plan[i].fallbackFor.Some?)
              || (r.fates[i].Grouped? && r.fates[i].struck && HasCause(plan, r.fates, i))
    ensures plan[i].id !in r.completed ==>
              || (exists d :: d in plan[i].dependencies && d !in r.completed)
              || FateFlags(r.fates[i]).Any()
  {
    assert Explained(env, cuts, plan, r, i);
    CallsForReturned(r.calls, plan[i].id);
    WhyFlagged(env, cuts, plan, r, i);
  }

  lemma BranchFlagged(env: Env, cut: Cut, tick: nat, node: PlanNode, ctx: Context, end: Branch, struck: bool, own: seq<Call>, done: bool)
    requires Branched(env, cut, tick, node, ctx, end, struck, own, done)
    ensures done <==> !end.ended.Flags().Any()
  {
    BranchBehaves(env, tick, node, ctx, cut);
    BranchCompletes(env, tick, node, ctx, cut);
    BranchWellShaped(node, end);
  }

  lemma BranchWellShaped(node: PlanNode, b: Branch)
    requires Behaves(node, b) && b.ended.Finished?
    ensures b.ended.exec.completed <==> !b.ended.Flags().Any()
  {
  }

  lemma WhyFlagged(env: Env, cuts: (nat, Context) -> Cut, plan: seq<PlanNode>, r: Report, i: nat)
    requires Told(env, cuts, plan, r) && i < r.reached
    ensures !r.fates[i].Skipped? ==> (plan[i].id in r.completed <==> !FateFlags(r.fates[i]).Any())
  {
    assert Explained(env, cuts, plan, r, i);
    match r.fates[i]
    case Ran(ctx, run) => NodeShape(env, i, plan[i], ctx);
    case Grouped(ctx, end, struck) => BranchFlagged(env, cuts(i, ctx), i, plan[i], ctx, end, struck, CallsFor(r.calls, plan[i].id), plan[i].id in r.completed);
    case _ =>
  }

  /** A node that was dealt with and never called. */
  lemma WhyUncalled(env: Env, cuts: (nat, Context) -> Cut, plan: seq<PlanNode>, r: Report, i: nat)
    requires Told(env, cuts, plan, r) && i < r.reached && CallsFor(r.calls, plan[i].id) == []
    ensures match r.fates[i]
            case Skipped => exists d :: d in plan[i].dependencies && d !in r.completed
            case Unneeded(ctx) => ctx.accepted && plan[i].fallbackFor.Some?
            case Ran(ctx, _) => Hindered(env, i, plan[i]) || |ctx.attempts| >= ctx.budget.attempts
            case Grouped(_, _, struck) => Hindered(env, i, plan[i]) || (struck && HasCause(plan, r.fates, i))
  {
    assert Explained(env, cuts, plan, r, i);
    match r.fates[i]
    case Ran(ctx, run) => WhyNotCalled(env, i, plan[i], ctx);
    case Grouped(ctx, end, struck) =>
      if !struck {
        WhyNotCalled(env, i, plan[i], ctx);
      }
    case _ =>
  }

  /** An adapter that is missing, an approval that is missing, or a deadline that has passed. */
  predicate Hindered(env: Env, tick: nat, node: PlanNode) {
    || node.adapter !in env.registered
    || (node.requiresApproval && node.capability !in env.approved)
    || env.deadlineLeft(tick) <= 0.0
  }
}
