/** `ExecutionEngine.execute` of `src/fetech/executor.py`, for every adapter behaviour and schedule. */
module Executor {
  import opened Common
  import opened Plan
  import opened Context
  import opened NodeRun
  import opened Batch

  // ---- What the main loop maintains --------------------------------------------------------

  /** Completion is closed under dependencies. */
  ghost predicate Closed(plan: seq<PlanNode>, completed: set<NodeId>) {
    forall n, d :: n in plan && n.id in completed && d in n.dependencies ==> d in completed
  }

  /** The state of the loop after it has dealt with the first `index` nodes. */
  ghost predicate LoopInv(plan: seq<PlanNode>, index: nat, completed: set<NodeId>, flags: Flags, calls: seq<Call>) {
    && index <= |plan|
    && completed <= Ids(plan[..index])
    && Closed(plan, completed)
    && (flags.Any() <==> exists i :: 0 <= i < index && plan[i].id !in completed)
    && (forall i :: 0 <= i < index && plan[i].id in completed && Plain(plan[i]) ==> CallReturned(calls, plan[i].id))
  }

  /** A node without alternatives: it completes only by its own call. */
  predicate Plain(n: PlanNode) {
    n.group.None? && n.fallbackFor.None?
  }

  /** A node's contribution: a completed node without alternatives really returned. */
  ghost predicate Contributes(node: PlanNode, exec: NodeExecution, calls: seq<Call>) {
    && WellShaped(exec)
    && CallsOf(calls, node)
    && (exec.completed && Plain(node) ==> CallReturned(calls, node.id))
  }

  lemma PrefixIds(plan: seq<PlanNode>, i: nat, j: nat)
    requires i <= j <= |plan|
    ensures Ids(plan[..i]) <= Ids(plan[..j])
  {
    assert forall n :: n in plan[..i] ==> n in plan[..j];
  }

  /** With unique identities, an identity among the first `index` nodes belongs to one of them only. */
  lemma NotYet(plan: seq<PlanNode>, index: nat, i: nat)
    requires UniqueIds(plan) && index <= i < |plan|
    ensures plan[i].id !in Ids(plan[..index])
  {
    forall n | n in plan[..index] ensures n.id != plan[i].id {
      var j :| 0 <= j < index && plan[j] == n;
    }
  }

  // ---- The order of calls ------------------------------------------------------------------

  /** Whoever depends on `g` is called only after a call of `g` returned. */
  ghost predicate Follows(plan: seq<PlanNode>, g: PlanNode, calls: seq<Call>) {
    forall i :: 0 <= i < |calls| && DependsOn(plan, calls[i].id, g.id) ==> CallReturned(calls[..i], g.id)
  }

  /** This holds for every node without alternatives: its dependents run only on its own success. */
  ghost predicate PlainFirst(plan: seq<PlanNode>, calls: seq<Call>) {
    forall g :: g in plan && Plain(g) ==> Follows(plan, g, calls)
  }

  /** Whoever may run runs after everything it depends on completed. */
  lemma AncestorCameFirst(plan: seq<PlanNode>, completed: set<NodeId>, node: PlanNode, ancestor: NodeId)
    requires UniqueIds(plan) && Closed(plan, completed) && node in plan
    requires forall d :: d in node.dependencies ==> d in completed
    requires DependsOn(plan, node.id, ancestor)
    ensures ancestor in completed
  {
    var path :| Chain(plan, path) && |path| > 1 && path[0] == node.id && path[|path| - 1] == ancestor;
    assert Link(plan, path[0], path[1]);
    var n :| n in plan && n.id == path[0] && path[1] in n.dependencies;
    assert n == node;
    ChainCompletes(plan, completed, path, |path| - 1);
  }

  lemma {:induction false} ChainCompletes(plan: seq<PlanNode>, completed: set<NodeId>, path: seq<NodeId>, k: nat)
    requires Closed(plan, completed) && Chain(plan, path) && 1 <= k < |path| && path[1] in completed
    ensures path[k] in completed
  {
    if k > 1 {
      ChainCompletes(plan, completed, path, k - 1);
      assert Link(plan, path[k - 1], path[k - 1 + 1]);
      var n :| n in plan && n.id == path[k - 1] && path[k] in n.dependencies;
    }
  }

  lemma CallsGrow(calls: seq<Call>, more: seq<Call>, id: NodeId)
    requires CallReturned(calls, id) || CallReturned(more, id)
    ensures CallReturned(calls + more, id)
  {
    if CallReturned(calls, id) {
      var i :| 0 <= i < |calls| && calls[i].id == id && calls[i].returned;
      assert (calls + more)[i] == calls[i];
    } else {
      var i :| 0 <= i < |more| && more[i].id == id && more[i].returned;
      assert (calls + more)[|calls| + i] == more[i];
    }
  }

  lemma AncestorReturned(plan: seq<PlanNode>, index: nat, completed: set<NodeId>, flags: Flags, calls: seq<Call>,
                         node: PlanNode, g: PlanNode)
    requires UniqueIds(plan) && LoopInv(plan, index, completed, flags, calls)
    requires node in plan && forall d :: d in node.dependencies ==> d in completed
    requires g in plan && Plain(g) && DependsOn(plan, node.id, g.id)
    ensures CallReturned(calls, g.id)
  {
    AncestorCameFirst(plan, completed, node, g.id);
    CompletedReturned(plan, index, completed, flags, calls, g);
  }

  lemma CompletedReturned(plan: seq<PlanNode>, index: nat, completed: set<NodeId>, flags: Flags, calls: seq<Call>, g: PlanNode)
    requires UniqueIds(plan) && LoopInv(plan, index, completed, flags, calls)
    requires g in plan && Plain(g) && g.id in completed
    ensures CallReturned(calls, g.id)
  {
    assert g.id in Ids(plan[..index]);
    var p :| p in plan[..index] && p.id == g.id;
    var i :| 0 <= i < index && plan[i] == p;
    assert p in plan && p == g;
    assert CallReturned(calls, plan[i].id);
  }

  lemma FollowsGrows(plan: seq<PlanNode>, g: PlanNode, calls: seq<Call>, node: PlanNode, more: seq<Call>)
    requires Follows(plan, g, calls) && CallsOf(more, node)
    requires DependsOn(plan, node.id, g.id) ==> CallReturned(calls, g.id)
    ensures Follows(plan, g, calls + more)
  {
    var all := calls + more;
    forall i | 0 <= i < |all| && DependsOn(plan, all[i].id, g.id) ensures CallReturned(all[..i], g.id) {
      if i < |calls| {
        assert all[..i] == calls[..i] && all[i] == calls[i];
      } else {
        assert all[i] == more[i - |calls|];
        assert all[..i] == calls + more[..i - |calls|];
        CallsGrow(calls, more[..i - |calls|], g.id);
      }
    }
  }

  /** The calls of a node that may run come after those it depends on. */
  lemma RunKeepsOrder(plan: seq<PlanNode>, index: nat, completed: set<NodeId>, flags: Flags, calls: seq<Call>,
                      node: PlanNode, more: seq<Call>)
    requires UniqueIds(plan) && LoopInv(plan, index, completed, flags, calls) && PlainFirst(plan, calls)
    requires node in plan && CallsOf(more, node) && forall d :: d in node.dependencies ==> d in completed
    ensures PlainFirst(plan, calls + more)
  {
    forall g | g in plan && Plain(g) ensures Follows(plan, g, calls + more) {
      if DependsOn(plan, node.id, g.id) {
        AncestorReturned(plan, index, completed, flags, calls, node, g);
      }
      FollowsGrows(plan, g, calls, node, more);
    }
  }

  /** The call is one of a node of the plan, and an approved one if that node needs approval. */
  ghost predicate Licensed(plan: seq<PlanNode>, approved: set<string>, c: Call) {
    exists n :: n in plan && n.id == c.id && n.adapter == c.adapter && (n.requiresApproval ==> n.capability in approved)
  }

  ghost predicate ApprovedCalls(plan: seq<PlanNode>, approved: set<string>, calls: seq<Call>) {
    forall i :: 0 <= i < |calls| ==> Licensed(plan, approved, calls[i])
  }

  lemma ApprovedGrows(plan: seq<PlanNode>, approved: set<string>, calls: seq<Call>, node: PlanNode, more: seq<Call>)
    requires node in plan && CallsOf(more, node) && ApprovedCalls(plan, approved, calls)
    requires more != [] && node.requiresApproval ==> node.capability in approved
    ensures ApprovedCalls(plan, approved, calls + more)
  {
    var all := calls + more;
    forall i | 0 <= i < |all| ensures Licensed(plan, approved, all[i]) {
      if i < |calls| {
        assert all[i] == calls[i];
      } else {
        assert all[i] == more[i - |calls|];
      }
    }
  }

  // ---- One node at a time ------------------------------------------------------------------

  function Complete(completed: set<NodeId>, node: PlanNode, exec: NodeExecution): set<NodeId> {
    if exec.completed then completed + {node.id} else completed
  }

  lemma AdvanceClosed(plan: seq<PlanNode>, completed: set<NodeId>, node: PlanNode, exec: NodeExecution)
    requires UniqueIds(plan) && Closed(plan, completed) && node in plan
    requires forall d :: d in node.dependencies ==> d in completed
    ensures Closed(plan, Complete(completed, node, exec))
  {
    var after := Complete(completed, node, exec);
    forall n, d | n in plan && n.id in after && d in n.dependencies ensures d in after {
      if n.id !in completed {
        assert n.id == node.id;
        assert n == node;
      }
    }
  }

  lemma AdvanceFlags(plan: seq<PlanNode>, index: nat, completed: set<NodeId>, flags: Flags, exec: NodeExecution)
    requires UniqueIds(plan) && index < |plan| && completed <= Ids(plan[..index]) && WellShaped(exec)
    requires flags.Any() <==> exists i :: 0 <= i < index && plan[i].id !in completed
    ensures flags.Or(exec.flags).Any() <==>
              exists i :: 0 <= i < index + 1 && plan[i].id !in Complete(completed, plan[index], exec)
  {
    NotYet(plan, index, index);
    var after := Complete(completed, plan[index], exec);
    if flags.Any() {
      var i :| 0 <= i < index && plan[i].id !in completed;
      assert plan[i].id !in after;
    } else if exec.flags.Any() {
      assert plan[index].id !in after;
    } else {
      forall i | 0 <= i < index + 1 ensures plan[i].id in after {}
    }
  }

  /** One node contributes its result. */
  lemma Advance(plan: seq<PlanNode>, index: nat, completed: set<NodeId>, flags: Flags, calls: seq<Call>,
                exec: NodeExecution, more: seq<Call>)
    requires UniqueIds(plan) && index < |plan| && LoopInv(plan, index, completed, flags, calls)
    requires forall d :: d in plan[index].dependencies ==> d in completed
    requires Contributes(plan[index], exec, more)
    ensures LoopInv(plan, index + 1, Complete(completed, plan[index], exec), flags.Or(exec.flags), calls + more)
  {
    var node := plan[index];
    var after := Complete(completed, node, exec);
    assert after <= Ids(plan[..index + 1]) by {
      PrefixIds(plan, index, index + 1);
      assert node in plan[..index + 1];
    }
    AdvanceClosed(plan, completed, node, exec);
    AdvanceFlags(plan, index, completed, flags, exec);
    NotYet(plan, index, index);
    forall i | 0 <= i < index + 1 && plan[i].id in after && plan[i].group.None? && plan[i].fallbackFor.None?
      ensures CallReturned(calls + more, plan[i].id)
    {
      CallsGrow(calls, more, plan[i].id);
    }
  }

  /** A node whose dependencies did not complete is passed over; something before it failed. */
  lemma Skip(plan: seq<PlanNode>, index: nat, completed: set<NodeId>, flags: Flags, calls: seq<Call>)
    requires Executable(plan) && index < |plan| && LoopInv(plan, index, completed, flags, calls)
    requires exists d :: d in plan[index].dependencies && d !in completed
    ensures LoopInv(plan, index + 1, completed, flags, calls) && flags.Any()
  {
    var d :| d in plan[index].dependencies && d !in completed;
    assert d in Ids(plan[..index]);
    var n :| n in plan[..index] && n.id == d;
    var i :| 0 <= i < index && plan[i] == n;
    assert plan[i].id !in completed;
    PrefixIds(plan, index, index + 1);
  }

  // ---- Batches in the plan -----------------------------------------------------------------

  /** The nodes of a batch do not depend on one another. */
  lemma BatchIsIndependent(plan: seq<PlanNode>, index: nat, completed: set<NodeId>, ctx: Context, batch: seq<PlanNode>,
                           i: nat, j: nat)
    requires UniqueIds(plan) && index + |batch| <= |plan| && completed <= Ids(plan[..index])
    requires batch == plan[index..index + |batch|] && i < |batch| && j < |batch|
    requires Joins(plan[index], batch[i], completed, ctx)
    ensures batch[j].id !in batch[i].dependencies
  {
    NotYet(plan, index, index + j);
  }

  /** The flags of the first `n` branches on top of those raised before. */
  function AllFlags(flags: Flags, branches: seq<Branch>, n: nat): Flags
    requires n <= |branches|
  {
    if n == 0 then flags else AllFlags(flags, branches, n - 1).Or(branches[n - 1].ended.Flags())
  }

  // ---- Taking in a batch -------------------------------------------------------------------

  /** What the loop has gathered from the branches so far. */
  datatype Tally = Tally(completed: set<NodeId>, flags: Flags, calls: seq<Call>, stop: bool)

  function Count(t: Tally, node: PlanNode, b: Branch): Tally
    requires b.ended.Finished?
  {
    Tally(Complete(t.completed, node, b.ended.exec), t.flags.Or(b.ended.exec.flags), t.calls + b.calls,
          t.stop || b.ended.exec.stop)
  }

  /** The tally after the first `n` branches. */
  ghost function TallyOf(start: Tally, batch: seq<PlanNode>, branches: seq<Branch>, n: nat): Tally
    requires n <= |branches| == |batch| && AllFinished(branches)
  {
    if n == 0 then start else Count(TallyOf(start, batch, branches, n - 1), batch[n - 1], branches[n - 1])
  }

  /** The loop over the branch results: completion, flags and calls, branch by branch. */
  method Absorb(start: Tally, batch: seq<PlanNode>, branches: seq<Branch>) returns (t: Tally)
    requires |branches| == |batch| && AllFinished(branches)
    ensures t == TallyOf(start, batch, branches, |batch|)
  {
    t := start;
    for i := 0 to |batch|
      invariant t == TallyOf(start, batch, branches, i)
    {
      t := Count(t, batch[i], branches[i]);
    }
  }

  /** The calls of the first `n` branches after those made before. */
  function Gather(calls: seq<Call>, branches: seq<Branch>, n: nat): seq<Call>
    requires n <= |branches|
  {
    if n == 0 then calls else Gather(calls, branches, n - 1) + branches[n - 1].calls
  }

  lemma {:induction false} TallyGathers(start: Tally, batch: seq<PlanNode>, branches: seq<Branch>, n: nat)
    requires n <= |branches| == |batch| && AllFinished(branches)
    ensures TallyOf(start, batch, branches, n).calls == Gather(start.calls, branches, n)
    ensures TallyOf(start, batch, branches, n).flags == AllFlags(start.flags, branches, n)
    ensures start.completed <= TallyOf(start, batch, branches, n).completed
    decreases n
  {
    if n > 0 {
      TallyGathers(start, batch, branches, n - 1);
    }
  }

  ghost predicate TallyInv(plan: seq<PlanNode>, index: nat, t: Tally) {
    LoopInv(plan, index, t.completed, t.flags, t.calls) && (t.stop ==> t.flags.Any())
  }

  /** The nodes of the batch are next in the plan, in a group, and ready to run, and each branch behaves. */
  ghost predicate BatchReady(plan: seq<PlanNode>, index: nat, batch: seq<PlanNode>, branches: seq<Branch>,
                             completed: set<NodeId>) {
    && |branches| == |batch|
    && (forall i :: 0 <= i < |batch| ==> NodeReady(plan, index + i, batch[i], branches[i], completed))
  }

  ghost predicate NodeReady(plan: seq<PlanNode>, k: nat, node: PlanNode, b: Branch, completed: set<NodeId>) {
    && k < |plan| && plan[k] == node && node.group.Some? && !node.requiresApproval && Behaves(node, b)
    && (forall d :: d in node.dependencies ==> d in completed)
  }

  /** Taking in the results of a whole batch keeps what the main loop maintains. */
  lemma {:induction false} TallyKeeps(plan: seq<PlanNode>, index: nat, start: Tally, batch: seq<PlanNode>,
                                      branches: seq<Branch>, n: nat)
    requires UniqueIds(plan) && TallyInv(plan, index, start)
    requires BatchReady(plan, index, batch, branches, start.completed) && n <= |batch| && AllFinished(branches)
    ensures TakenUpTo(plan, index, start, batch, branches, n)
    decreases n
  {
    if n > 0 {
      TallyKeeps(plan, index, start, batch, branches, n - 1);
      TallyNext(plan, index, start, batch, branches, n - 1);
    }
  }

  /** The first `n` branches are taken in. */
  ghost predicate TakenUpTo(plan: seq<PlanNode>, index: nat, start: Tally, batch: seq<PlanNode>, branches: seq<Branch>, n: nat)
    requires n <= |branches| == |batch| && AllFinished(branches)
  {
    TallyInv(plan, index + n, TallyOf(start, batch, branches, n))
  }

  lemma TallyNext(plan: seq<PlanNode>, index: nat, start: Tally, batch: seq<PlanNode>, branches: seq<Branch>, i: nat)
    requires UniqueIds(plan) && BatchReady(plan, index, batch, branches, start.completed) && i < |batch| && AllFinished(branches)
    requires TakenUpTo(plan, index, start, batch, branches, i)
    ensures TakenUpTo(plan, index, start, batch, branches, i + 1)
  {
    StillReady(plan, index, start, batch, branches, i);
    CountKeeps(plan, index + i, TallyOf(start, batch, branches, i), batch[i], branches[i]);
  }

  lemma StillReady(plan: seq<PlanNode>, index: nat, start: Tally, batch: seq<PlanNode>, branches: seq<Branch>, i: nat)
    requires BatchReady(plan, index, batch, branches, start.completed) && i < |batch| && AllFinished(branches)
    ensures NodeReady(plan, index + i, batch[i], branches[i], TallyOf(start, batch, branches, i).completed)
  {
    TallyGathers(start, batch, branches, i);
    assert NodeReady(plan, index + i, batch[i], branches[i], start.completed);
  }

  lemma CountKeeps(plan: seq<PlanNode>, k: nat, t: Tally, node: PlanNode, b: Branch)
    requires UniqueIds(plan) && TallyInv(plan, k, t) && NodeReady(plan, k, node, b, t.completed) && b.ended.Finished?
    ensures TallyInv(plan, k + 1, Count(t, node, b))
  {
    Advance(plan, k, t.completed, t.flags, t.calls, b.ended.exec, b.calls);
  }

  // ---- The calls of a batch, whether it returns or raises ----------------------------------

  /** Whatever the branch calls was ready when the batch began. */
  ghost predicate MayCall(plan: seq<PlanNode>, g: PlanNode, calls: seq<Call>, node: PlanNode, b: Branch) {
    CallsOf(b.calls, node) && (DependsOn(plan, node.id, g.id) ==> CallReturned(calls, g.id))
  }

  ghost predicate AllMayCall(plan: seq<PlanNode>, g: PlanNode, calls: seq<Call>, batch: seq<PlanNode>, branches: seq<Branch>) {
    |branches| == |batch| && forall i :: 0 <= i < |batch| ==> MayCall(plan, g, calls, batch[i], branches[i])
  }

  /** Calls were added, none of them too early. */
  ghost predicate FollowsStill(plan: seq<PlanNode>, g: PlanNode, calls: seq<Call>, more: seq<Call>) {
    Follows(plan, g, more) && ReturnsStill(g.id, calls, more)
  }

  predicate ReturnsStill(id: NodeId, calls: seq<Call>, more: seq<Call>) {
    CallReturned(calls, id) ==> CallReturned(more, id)
  }

  lemma FollowsOn(plan: seq<PlanNode>, g: PlanNode, calls: seq<Call>, most: seq<Call>, node: PlanNode, b: Branch)
    requires FollowsStill(plan, g, calls, most) && MayCall(plan, g, calls, node, b)
    ensures FollowsStill(plan, g, calls, most + b.calls)
  {
    FollowsGrows(plan, g, most, node, b.calls);
    if CallReturned(calls, g.id) {
      CallsGrow(most, b.calls, g.id);
    }
  }

  /** The calls of the first `n` branches are added. */
  ghost predicate GatheredUpTo(plan: seq<PlanNode>, g: PlanNode, calls: seq<Call>, branches: seq<Branch>, n: nat)
    requires n <= |branches|
  {
    FollowsStill(plan, g, calls, Gather(calls, branches, n))
  }

  lemma GatherNone(plan: seq<PlanNode>, g: PlanNode, calls: seq<Call>, branches: seq<Branch>)
    requires Follows(plan, g, calls)
    ensures GatheredUpTo(plan, g, calls, branches, 0)
  {
  }

  lemma GatherNext(plan: seq<PlanNode>, g: PlanNode, calls: seq<Call>, batch: seq<PlanNode>, branches: seq<Branch>, i: nat)
    requires AllMayCall(plan, g, calls, batch, branches) && i < |batch|
    requires GatheredUpTo(plan, g, calls, branches, i)
    ensures GatheredUpTo(plan, g, calls, branches, i + 1)
  {
    FollowsOn(plan, g, calls, Gather(calls, branches, i), batch[i], branches[i]);
  }

  lemma {:induction false} GatherFollows(plan: seq<PlanNode>, g: PlanNode, calls: seq<Call>, batch: seq<PlanNode>,
                                         branches: seq<Branch>, n: nat)
    requires n <= |branches| == |batch| && GatheredUpTo(plan, g, calls, branches, 0)
    requires AllMayCall(plan, g, calls, batch, branches)
    ensures GatheredUpTo(plan, g, calls, branches, n)
    decreases n
  {
    if n > 0 {
      GatherFollows(plan, g, calls, batch, branches, n - 1);
      GatherNext(plan, g, calls, batch, branches, n - 1);
    }
  }

  /** The branches of a batch were ready before it, so what they depend on was called before. */
  lemma BatchKeepsOrder(plan: seq<PlanNode>, index: nat, start: Tally, batch: seq<PlanNode>, branches: seq<Branch>)
    requires UniqueIds(plan) && TallyInv(plan, index, start) && PlainFirst(plan, start.calls)
    requires BatchReady(plan, index, batch, branches, start.completed)
    ensures PlainFirst(plan, Gather(start.calls, branches, |branches|))
  {
    forall g | g in plan && Plain(g) ensures Follows(plan, g, Gather(start.calls, branches, |branches|)) {
      forall i | 0 <= i < |batch| ensures MayCall(plan, g, start.calls, batch[i], branches[i]) {
        assert NodeReady(plan, index + i, batch[i], branches[i], start.completed);
        if DependsOn(plan, batch[i].id, g.id) {
          AncestorReturned(plan, index, start.completed, start.flags, start.calls, batch[i], g);
        }
      }
      GatherNone(plan, g, start.calls, branches);
      GatherFollows(plan, g, start.calls, batch, branches, |branches|);
    }
  }

  /** No node of a batch needs approval. */
  lemma {:induction false} GatherApproved(plan: seq<PlanNode>, approved: set<string>, calls: seq<Call>,
                                          batch: seq<PlanNode>, branches: seq<Branch>, n: nat)
    requires n <= |branches| == |batch| && ApprovedCalls(plan, approved, calls)
    requires forall i :: 0 <= i < n ==>
               batch[i] in plan && !batch[i].requiresApproval && CallsOf(branches[i].calls, batch[i])
    ensures ApprovedCalls(plan, approved, Gather(calls, branches, n))
    decreases n
  {
    if n > 0 {
      GatherApproved(plan, approved, calls, batch, branches, n - 1);
      ApprovedGrows(plan, approved, Gather(calls, branches, n - 1), batch[n - 1], branches[n - 1].calls);
    }
  }

  lemma BatchKeepsApproval(plan: seq<PlanNode>, index: nat, calls: seq<Call>, completed: set<NodeId>, batch: seq<PlanNode>,
                           branches: seq<Branch>, approved: set<string>)
    requires BatchReady(plan, index, batch, branches, completed) && ApprovedCalls(plan, approved, calls)
    ensures ApprovedCalls(plan, approved, Gather(calls, branches, |branches|))
  {
    forall i | 0 <= i < |batch|
      ensures batch[i] in plan && !batch[i].requiresApproval && CallsOf(branches[i].calls, batch[i])
    {
      assert NodeReady(plan, index + i, batch[i], branches[i], completed);
    }
    GatherApproved(plan, approved, calls, batch, branches, |branches|);
  }

  // ---- The main loop, as a function of what cannot be seen ---------------------------------

  /** What became of a node, and the context it was looked at in. */
  datatype Fate =
    | Skipped                                   // a dependency had not completed
    | Unneeded(ctx: Context)                    // a fallback of what was accepted already
    | Ran(ctx: Context, run: NodeRun)           // on its own
    | Grouped(ctx: Context, end: Branch, struck: bool)   // as a branch, cancelled or left alone

  /**
   What a run leaves behind, whether it returns a status or raises.  A batch that raises leaves its
   branches' contexts unmerged; `stranded` keeps them, and `flags` what their handlers had found.
   `fates` tells of every node below `reached`, and `records` counts the deadline records.
   */
  datatype Report = Report(status: Option<Status>, context: Context, stranded: seq<Branch>, completed: set<NodeId>,
                           calls: seq<Call>, flags: Flags, reached: nat, fates: seq<Fate>, records: nat)

  datatype Go = Onward | Stop | Raise

  function RecordSkip(ctx: Context, node: PlanNode): Context {
    ctx.(outcomes := ctx.outcomes + [Outcome(node.capability, NotApplicable, node.adapter)])
  }

  /** A dependency is missing: the node is reported and passed over. */
  function SkippedOf(node: PlanNode, s: Report): Report {
    s.(context := RecordSkip(Diagnose(s.context, "dependency_skipped"), node), reached := s.reached + 1,
       fates := s.fates + [Skipped])
  }

  /** An unneeded fallback counts as completed without being called. */
  function UnneededOf(node: PlanNode, s: Report): Report {
    s.(context := RecordSkip(s.context, node), completed := s.completed + {node.id}, reached := s.reached + 1,
       fates := s.fates + [Unneeded(s.context)])
  }

  /** One node on its own; its exception ends the run where it is. */
  function SingleOf(env: Env, node: PlanNode, s: Report): (Report, Go) {
    var run := RunNode(env, s.reached, node, s.context);
    var after := s.(context := run.after, calls := s.calls + run.calls, flags := s.flags.Or(run.ended.Flags()),
                    records := s.records + run.records);
    if run.ended.Finished? then
      (after.(completed := Complete(s.completed, node, run.ended.exec), reached := s.reached + 1,
              fates := s.fates + [Ran(s.context, run)]),
       if run.ended.exec.stop then Stop else Onward)
    else (after, Raise)
  }

  function BatchFates(own: seq<Context>, branches: seq<Branch>, struck: set<nat>): (fates: seq<Fate>)
    requires |own| == |branches|
    ensures |fates| == |branches|
  {
    seq(|branches|, i requires 0 <= i < |branches| => Grouped(own[i], branches[i], i in struck))
  }

  /** The batch raised: its branches have ended all the same, but are not merged. */
  function Strand(batch: seq<PlanNode>, s: Report, branches: seq<Branch>): Report
    requires |branches| == |batch|
  {
    s.(stranded := branches, calls := Gather(s.calls, branches, |batch|), flags := AllFlags(s.flags, branches, |batch|),
       records := s.records + Sum(Records(branches)))
  }

  /** The batch returned: its contexts were merged, its results taken in. */
  function Absorbed(batch: seq<PlanNode>, s: Report, end: BatchEnd, merged: Context, t: Tally): Report {
    s.(context := merged, completed := t.completed, calls := t.calls, flags := t.flags,
       reached := s.reached + |batch|, fates := s.fates + BatchFates(BranchContexts(s.context, |end.branches|), end.branches, end.struck),
       records := s.records + Sum(Records(end.branches)))
  }

  /** A batch, whether it returns or raises. */
  ghost function TakeIn(batch: seq<PlanNode>, s: Report, end: BatchEnd): (Report, Go)
    requires |end.branches| == |batch| && (end.Done? ==> AllFinished(end.branches))
  {
    if end.Threw? then (Strand(batch, s, end.branches), Raise)
    else
      var t := TallyOf(Tally(s.completed, s.flags, s.calls, false), batch, end.branches, |batch|);
      (Absorbed(batch, s, end, MergeAll(s.context, Afters(end.branches)), t), if t.stop then Stop else Onward)
  }

  ghost function BatchOf(env: Env, wait: Wait, cuts: (nat, Context) -> Cut, batch: seq<PlanNode>, s: Report): (Report, Go)
    requires Completes(wait)
  {
    TakeIn(batch, s, EndOf(TasksOf(env, cuts, s.reached, batch, s.context), s.context.accepted, wait))
  }

  /** A batch of several branches, or one node on its own. */
  ghost function CallOf(env: Env, wait: Wait, cuts: (nat, Context) -> Cut, batch: seq<PlanNode>, s: Report): (r: (Report, Go))
    requires Completes(wait) && batch != []
    ensures s.reached <= r.0.reached <= s.reached + |batch| && (r.1 != Raise ==> s.reached < r.0.reached)
  {
    if |batch| > 1 then BatchOf(env, wait, cuts, batch, s) else SingleOf(env, batch[0], s)
  }

  /** The batch that opens at the node at hand. */
  function BatchAt(plan: seq<PlanNode>, s: Report): (batch: seq<PlanNode>)
    requires s.reached < |plan|
    ensures batch != [] && s.reached + |batch| <= |plan| && batch == plan[s.reached..s.reached + |batch|]
    ensures |batch| > 1 ==> |batch| <= s.context.budget.attempts - |s.context.attempts| && plan[s.reached].group.Some?
  {
    plan[s.reached..s.reached + BatchSize(plan, s.reached, s.completed, s.context)]
  }

  /** One turn of the main loop. */
  ghost function TurnOf(env: Env, wait: Wait, cuts: (nat, Context) -> Cut, plan: seq<PlanNode>, s: Report): (r: (Report, Go))
    requires Completes(wait) && s.reached < |plan|
    ensures s.reached <= r.0.reached <= |plan| && (r.1 != Raise ==> s.reached < r.0.reached)
  {
    var node := plan[s.reached];
    if exists d :: d in node.dependencies && d !in s.completed then (SkippedOf(node, s), Onward)
    else if s.context.accepted && node.fallbackFor.Some? then (UnneededOf(node, s), Onward)
    else CallOf(env, wait, cuts, BatchAt(plan, s), s)
  }

  /** The bookkeeping outcomes that close a run. */
  function CloseRun(ctx: Context): Context {
    var logged := ctx.(outcomes := ctx.outcomes + [Outcome("fetch_attempt_logging", Applied, "ledger"),
                                                   Outcome("timeout_diagnostics", Applied, "executor")]);
    if HasOutcome(logged.outcomes, 0, "cache_expiry_check") then logged
    else logged.(outcomes := logged.outcomes + [Outcome("cache_expiry_check", NotApplicable, "cache")])
  }

  ghost function RunFrom(env: Env, waits: nat -> Wait, cuts: (nat, Context) -> Cut, plan: seq<PlanNode>, s: Report, go: Go): Report
    requires forall t: nat :: Completes(waits(t))
    decreases |plan| - s.reached, go == Onward
  {
    if go == Raise then s
    else if s.reached >= |plan| || go == Stop then
      s.(context := CloseRun(s.context), status := Some(StatusOf(CloseRun(s.context), s.flags)))
    else
      var next := TurnOf(env, waits(s.reached), cuts, plan, s);
      RunFrom(env, waits, cuts, plan, next.0, next.1)
  }

  function Begin(start: Context): Report {
    Report(None, start, [], {}, [], NO_FLAGS, 0, [], 0)
  }

  /** The run of a plan: the specification of `execute`. */
  ghost function RunOf(env: Env, waits: nat -> Wait, cuts: (nat, Context) -> Cut, plan: seq<PlanNode>, start: Context): Report
    requires forall t: nat :: Completes(waits(t))
  {
    RunFrom(env, waits, cuts, plan, Begin(start), Onward)
  }

  // ---- What every turn keeps ---------------------------------------------------------------

  /** Everything that was spent: the context, and what stranded branches added to it. */
  function Total(r: Report): Context {
    MergeAll(r.context, Afters(r.stranded))
  }

  lemma NothingStranded(r: Report)
    requires r.stranded == []
    ensures Total(r) == r.context
  {
    assert Afters(r.stranded) == [];
  }

  /** What one turn of the loop does to the budget: no more attempts than allowed but for the deadline records. */
  ghost predicate Paid(s: Report, next: Report) {
    s.records <= next.records && SpendsUpTo(s.context, Total(next), next.records - s.records)
  }

  /** Nothing happens that the engine does not expect, and nobody cancels the run. */
  ghost predicate AllCalm(env: Env, wait: Wait, cuts: (nat, Context) -> Cut) {
    Calm(env) && CalmCuts(cuts) && Quiet(wait)
  }

  /** What holds between two turns, and what is left of it when the run raises. */
  ghost predicate Sound(plan: seq<PlanNode>, s: Report, go: Go) {
    && s.completed <= Ids(plan) && Closed(plan, s.completed)
    && (go != Raise ==> LoopInv(plan, s.reached, s.completed, s.flags, s.calls) && s.stranded == [])
    && (go == Stop ==> s.flags.Any())
  }

  ghost predicate Ordered(env: Env, plan: seq<PlanNode>, s: Report) {
    PlainFirst(plan, s.calls) && ApprovedCalls(plan, env.approved, s.calls)
  }

  lemma PrefixInv(plan: seq<PlanNode>, index: nat, completed: set<NodeId>, flags: Flags, calls: seq<Call>)
    requires LoopInv(plan, index, completed, flags, calls)
    ensures completed <= Ids(plan) && Closed(plan, completed)
  {
    PrefixIds(plan, index, |plan|);
    assert plan[..|plan|] == plan;
  }

  lemma SkippedKeeps(plan: seq<PlanNode>, s: Report)
    requires Executable(plan) && s.reached < |plan| && Sound(plan, s, Onward)
    requires exists d :: d in plan[s.reached].dependencies && d !in s.completed
    ensures var next := SkippedOf(plan[s.reached], s); Sound(plan, next, Onward) && next.flags.Any() && Paid(s, next)
  {
    var next := SkippedOf(plan[s.reached], s);
    Skip(plan, s.reached, s.completed, s.flags, s.calls);
    SpendsNothing(s.context, next.context);
    NothingStranded(next);
  }

  lemma UnneededKeeps(plan: seq<PlanNode>, s: Report)
    requires Executable(plan) && s.reached < |plan| && Sound(plan, s, Onward)
    requires (forall d :: d in plan[s.reached].dependencies ==> d in s.completed) && plan[s.reached].fallbackFor.Some?
    ensures var next := UnneededOf(plan[s.reached], s); Sound(plan, next, Onward) && Paid(s, next)
  {
    var next := UnneededOf(plan[s.reached], s);
    Advance(plan, s.reached, s.completed, s.flags, s.calls, COMPLETED, []);
    assert s.calls + [] == s.calls && s.flags.Or(NO_FLAGS) == s.flags;
    SpendsNothing(s.context, next.context);
    PrefixInv(plan, next.reached, next.completed, next.flags, next.calls);
    NothingStranded(next);
  }

  lemma SingleKeeps(env: Env, plan: seq<PlanNode>, s: Report)
    requires Executable(plan) && s.reached < |plan| && Sound(plan, s, Onward) && Ordered(env, plan, s)
    requires forall d :: d in plan[s.reached].dependencies ==> d in s.completed
    ensures var next := SingleOf(env, plan[s.reached], s);
            && Sound(plan, next.0, next.1) && Ordered(env, plan, next.0)
            && (Calm(env) ==> next.1 != Raise)
            && (Honest(env) ==> Paid(s, next.0))
  {
    SingleIsSound(env, plan, s);
    SingleIsOrdered(env, plan, s);
    SinglePays(env, plan[s.reached], s);
  }

  lemma SingleIsSound(env: Env, plan: seq<PlanNode>, s: Report)
    requires Executable(plan) && s.reached < |plan| && Sound(plan, s, Onward)
    requires forall d :: d in plan[s.reached].dependencies ==> d in s.completed
    ensures var next := SingleOf(env, plan[s.reached], s); Sound(plan, next.0, next.1)
  {
    var node := plan[s.reached];
    var run, next := RunNode(env, s.reached, node, s.context), SingleOf(env, node, s).0;
    NodeShape(env, s.reached, node, s.context);
    if run.ended.Finished? {
      Advance(plan, s.reached, s.completed, s.flags, s.calls, run.ended.exec, run.calls);
      PrefixInv(plan, next.reached, next.completed, next.flags, next.calls);
    }
  }

  lemma SingleIsOrdered(env: Env, plan: seq<PlanNode>, s: Report)
    requires Executable(plan) && s.reached < |plan| && Sound(plan, s, Onward) && Ordered(env, plan, s)
    requires forall d :: d in plan[s.reached].dependencies ==> d in s.completed
    ensures Ordered(env, plan, SingleOf(env, plan[s.reached], s).0)
  {
    var node := plan[s.reached];
    var run := RunNode(env, s.reached, node, s.context);
    NodeShape(env, s.reached, node, s.context);
    RunKeepsOrder(plan, s.reached, s.completed, s.flags, s.calls, node, run.calls);
    ApprovedGrows(plan, env.approved, s.calls, node, run.calls);
  }

  lemma SinglePays(env: Env, node: PlanNode, s: Report)
    requires s.stranded == []
    ensures var next := SingleOf(env, node, s);
            (Calm(env) ==> next.1 != Raise) && (Honest(env) ==> Paid(s, next.0))
  {
    NothingStranded(SingleOf(env, node, s).0);
    if Calm(env) {
      NodeReturns(env, s.reached, node, s.context);
    }
    if Honest(env) {
      NodeSpends(env, s.reached, node, s.context);
    }
  }

  lemma BatchKeeps(env: Env, wait: Wait, cuts: (nat, Context) -> Cut, plan: seq<PlanNode>, s: Report, batch: seq<PlanNode>)
    requires Executable(plan) && Sound(plan, s, Onward) && Ordered(env, plan, s) && Completes(wait)
    requires |batch| > 1 && s.reached + |batch| <= |plan| && batch == plan[s.reached..s.reached + |batch|]
    requires plan[s.reached].group.Some? && |batch| <= s.context.budget.attempts - |s.context.attempts|
    requires forall i :: 0 <= i < |batch| ==> Joins(plan[s.reached], batch[i], s.completed, s.context)
    ensures Kept(env, wait, cuts, plan, s, BatchOf(env, wait, cuts, batch, s))
  {
    var end := EndOf(TasksOf(env, cuts, s.reached, batch, s.context), s.context.accepted, wait);
    BatchOutcome(env, wait, cuts, s.reached, batch, s.context);
    ReadyBatch(plan, s, batch, end.branches);
    TakenIsOrdered(env, plan, s, batch, end);
    if end.Done? {
      TakenIsSound(plan, s, batch, end);
    }
    TakenIsPaid(s, batch, end);
  }

  lemma TakenIsOrdered(env: Env, plan: seq<PlanNode>, s: Report, batch: seq<PlanNode>, end: BatchEnd)
    requires Executable(plan) && Sound(plan, s, Onward) && Ordered(env, plan, s)
    requires BatchReady(plan, s.reached, batch, end.branches, s.completed) && (end.Done? ==> AllFinished(end.branches))
    ensures Ordered(env, plan, TakeIn(batch, s, end).0)
  {
    var start := Tally(s.completed, s.flags, s.calls, false);
    BatchKeepsOrder(plan, s.reached, start, batch, end.branches);
    BatchKeepsApproval(plan, s.reached, s.calls, s.completed, batch, end.branches, env.approved);
    if end.Done? {
      TallyGathers(start, batch, end.branches, |batch|);
    }
  }

  lemma TakenIsSound(plan: seq<PlanNode>, s: Report, batch: seq<PlanNode>, end: BatchEnd)
    requires Executable(plan) && Sound(plan, s, Onward)
    requires BatchReady(plan, s.reached, batch, end.branches, s.completed) && end.Done? && AllFinished(end.branches)
    ensures var next := TakeIn(batch, s, end); Sound(plan, next.0, next.1)
  {
    TallyKeeps(plan, s.reached, Tally(s.completed, s.flags, s.calls, false), batch, end.branches, |batch|);
    var next := TakeIn(batch, s, end).0;
    PrefixInv(plan, next.reached, next.completed, next.flags, next.calls);
  }

  lemma TakenIsPaid(s: Report, batch: seq<PlanNode>, end: BatchEnd)
    requires s.stranded == [] && |end.branches| == |batch| && (end.Done? ==> AllFinished(end.branches))
    ensures SpendsUpTo(s.context, MergeAll(s.context, Afters(end.branches)), Sum(Records(end.branches))) ==>
              Paid(s, TakeIn(batch, s, end).0)
  {
    if end.Done? {
      NothingStranded(TakeIn(batch, s, end).0);
    }
  }

  lemma ReadyBatch(plan: seq<PlanNode>, s: Report, batch: seq<PlanNode>, branches: seq<Branch>)
    requires s.reached + |batch| <= |plan| && batch == plan[s.reached..s.reached + |batch|]
    requires s.reached < |plan| && plan[s.reached].group.Some? && AllBehave(batch, branches)
    requires forall i :: 0 <= i < |batch| ==> Joins(plan[s.reached], batch[i], s.completed, s.context)
    ensures BatchReady(plan, s.reached, batch, branches, s.completed)
  {
    forall i | 0 <= i < |batch|
      ensures NodeReady(plan, s.reached + i, batch[i], branches[i], s.completed)
    {
      assert Joins(plan[s.reached], batch[i], s.completed, s.context) && Behaves(batch[i], branches[i]);
    }
  }

  /** Every turn keeps all of that. */
  lemma TurnKeeps(env: Env, wait: Wait, cuts: (nat, Context) -> Cut, plan: seq<PlanNode>, s: Report)
    requires Executable(plan) && s.reached < |plan| && Sound(plan, s, Onward) && Ordered(env, plan, s) && Completes(wait)
    ensures Kept(env, wait, cuts, plan, s, TurnOf(env, wait, cuts, plan, s))
  {
    var node := plan[s.reached];
    if exists d :: d in node.dependencies && d !in s.completed {
      SkippedKeeps(plan, s);
    } else if s.context.accepted && node.fallbackFor.Some? {
      UnneededKeeps(plan, s);
    } else {
      CallKeeps(env, wait, cuts, plan, s, BatchAt(plan, s));
    }
  }

  lemma CallKeeps(env: Env, wait: Wait, cuts: (nat, Context) -> Cut, plan: seq<PlanNode>, s: Report, batch: seq<PlanNode>)
    requires Executable(plan) && s.reached < |plan| && Sound(plan, s, Onward) && Ordered(env, plan, s) && Completes(wait)
    requires (forall d :: d in plan[s.reached].dependencies ==> d in s.completed) && batch == BatchAt(plan, s)
    ensures Kept(env, wait, cuts, plan, s, CallOf(env, wait, cuts, batch, s))
  {
    if |batch| > 1 {
      BatchIsNext(plan, s, |batch|);
      BatchKeeps(env, wait, cuts, plan, s, batch);
    } else {
      SingleKeeps(env, plan, s);
    }
  }

  /** What a turn keeps. */
  ghost predicate Kept(env: Env, wait: Wait, cuts: (nat, Context) -> Cut, plan: seq<PlanNode>, s: Report, next: (Report, Go)) {
    && Sound(plan, next.0, next.1) && Ordered(env, plan, next.0)
    && (AllCalm(env, wait, cuts) ==> next.1 != Raise)
    && (Disciplined(env, cuts) ==> Paid(s, next.0))
  }

  lemma BatchIsNext(plan: seq<PlanNode>, s: Report, n: nat)
    requires s.reached < |plan| && n == |BatchAt(plan, s)| && n > 1
    ensures var batch := BatchAt(plan, s);
            forall i :: 0 <= i < n ==> Joins(plan[s.reached], batch[i], s.completed, s.context)
  {
    var batch := BatchAt(plan, s);
    forall i | 0 <= i < n
      ensures Joins(plan[s.reached], batch[i], s.completed, s.context)
    {
      BatchJoins(plan, s.reached, s.completed, s.context, i);
    }
  }

  /** From the beginning of the run on, spending is within the budget but for the deadline records. */
  ghost predicate Accounted(start: Context, r: Report) {
    SpendsUpTo(start, Total(r), r.records)
  }

  /** What is claimed of a run, however it ends. */
  ghost predicate Safe(env: Env, cuts: (nat, Context) -> Cut, plan: seq<PlanNode>, start: Context, r: Report) {
    && Ordered(env, plan, r)
    && r.completed <= Ids(plan) && Closed(plan, r.completed)
    && (Disciplined(env, cuts) ==> Accounted(start, r))
  }

  /** What is claimed of a run that returns. */
  ghost predicate Settled(plan: seq<PlanNode>, r: Report) {
    && r.stranded == [] && r.status == Some(StatusOf(r.context, r.flags))
    && (r.status == Some(Success) <==> r.context.accepted && forall n :: n in plan ==> n.id in r.completed)
    && (forall g :: g in plan && Plain(g) && g.id in r.completed ==> CallReturned(r.calls, g.id))
  }

  lemma {:induction false} RunKeeps(env: Env, waits: nat -> Wait, cuts: (nat, Context) -> Cut, plan: seq<PlanNode>,
                                    start: Context, s: Report, go: Go)
    requires Executable(plan) && forall t: nat :: Completes(waits(t))
    requires Sound(plan, s, go) && Ordered(env, plan, s) && s.status.None? && s.reached <= |plan|
    requires Disciplined(env, cuts) ==> Accounted(start, s)
    ensures var r := RunFrom(env, waits, cuts, plan, s, go);
            && Safe(env, cuts, plan, start, r)
            && (r.status.Some? ==> Settled(plan, r))
            && (go != Raise && (forall t: nat :: AllCalm(env, waits(t), cuts)) ==> r.status.Some?)
    decreases |plan| - s.reached, go == Onward
  {
    if go == Raise {
    } else if s.reached == |plan| || go == Stop {
      Closing(env, cuts, plan, start, s, go);
    } else {
      var next := TurnOf(env, waits(s.reached), cuts, plan, s);
      TurnKeeps(env, waits(s.reached), cuts, plan, s);
      StatusIsLast(env, waits(s.reached), cuts, plan, s);
      if Disciplined(env, cuts) {
        NothingStranded(s);
        SpendsNext(start, s.context, Total(next.0), s.records, next.0.records - s.records);
      }
      RunKeeps(env, waits, cuts, plan, start, next.0, next.1);
    }
  }

  lemma StatusIsLast(env: Env, wait: Wait, cuts: (nat, Context) -> Cut, plan: seq<PlanNode>, s: Report)
    requires s.reached < |plan| && Completes(wait)
    ensures TurnOf(env, wait, cuts, plan, s).0.status == s.status
  {
  }

  lemma Closing(env: Env, cuts: (nat, Context) -> Cut, plan: seq<PlanNode>, start: Context, s: Report, go: Go)
    requires Executable(plan) && Sound(plan, s, go) && Ordered(env, plan, s) && go != Raise
    requires s.reached == |plan| || go == Stop
    requires Disciplined(env, cuts) ==> Accounted(start, s)
    ensures var r := s.(context := CloseRun(s.context), status := Some(StatusOf(CloseRun(s.context), s.flags)));
            Safe(env, cuts, plan, start, r) && Settled(plan, r)
  {
    var r := s.(context := CloseRun(s.context), status := Some(StatusOf(CloseRun(s.context), s.flags)));
    Classified(plan, s.reached, s.completed, s.flags, s.calls, go == Stop);
    forall g | g in plan && Plain(g) && g.id in s.completed ensures CallReturned(s.calls, g.id) {
      CompletedReturned(plan, s.reached, s.completed, s.flags, s.calls, g);
    }
    NothingStranded(s);
    NothingStranded(r);
    SpendsNothing(s.context, r.context);
    if Disciplined(env, cuts) {
      SpendsNext(start, s.context, r.context, s.records, 0);
    }
  }

  lemma RunIsSafe(env: Env, waits: nat -> Wait, cuts: (nat, Context) -> Cut, plan: seq<PlanNode>, start: Context)
    requires Executable(plan) && forall t: nat :: Completes(waits(t))
    ensures var r := RunOf(env, waits, cuts, plan, start);
            && Safe(env, cuts, plan, start, r)
            && (r.status.Some? ==> Settled(plan, r))
            && ((forall t: nat :: AllCalm(env, waits(t), cuts)) ==> r.status.Some?)
  {
    var s := Begin(start);
    NothingStranded(s);
    SpendsNothing(start, start);
    RunKeeps(env, waits, cuts, plan, start, s, Onward);
  }

  /** No flag was raised exactly when the loop reached the end and completed everything. */
  lemma Classified(plan: seq<PlanNode>, index: nat, completed: set<NodeId>, flags: Flags, calls: seq<Call>, stop: bool)
    requires UniqueIds(plan) && LoopInv(plan, index, completed, flags, calls)
    requires index == |plan| || stop
    requires stop ==> flags.Any()
    ensures !flags.Any() <==> forall n :: n in plan ==> n.id in completed
    ensures completed <= Ids(plan)
  {
    PrefixIds(plan, index, |plan|);
    assert plan[..|plan|] == plan;
    if flags.Any() {
      var i :| 0 <= i < index && plan[i].id !in completed;
      assert plan[i] in plan;
    } else {
      forall n | n in plan ensures n.id in completed {
        var i :| 0 <= i < |plan| && plan[i] == n;
      }
    }
  }
}
