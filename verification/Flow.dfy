/** How the context goes through a run: from node to node, through batches in their order, to the result. */
module Flow {
  import opened Common
  import opened Plan
  import opened Context
  import opened NodeRun
  import opened Batch
  import opened Executor
  import opened Fates

  /** What a node makes of the context it finds. */
  ghost predicate Passes(node: PlanNode, fate: Fate, before: Context, after: Context) {
    match fate
    case Skipped =>
      after == before.(outcomes := before.outcomes + [Outcome(node.capability, NotApplicable, node.adapter)],
                       diagnostics := before.diagnostics + ["dependency_skipped"])
    case Unneeded(ctx) =>
      ctx == before && after == before.(outcomes := before.outcomes + [Outcome(node.capability, NotApplicable, node.adapter)])
    case Ran(ctx, run) => ctx == before && after == run.after
    case Grouped(ctx, end, _) => after == MergeOne(before, end.after, ctx)
  }

  /** A branch starts from the context that the first one of its batch found, with a budget of its own. */
  ghost predicate Branches(plan: seq<PlanNode>, fates: seq<Fate>, ctxs: seq<Context>, i: nat)
    requires i < |fates| < |ctxs| && |fates| <= |plan| && fates[i].Grouped?
  {
    exists a :: 0 <= a <= i && fates[i].ctx == ctxs[a].(budget := fates[i].ctx.budget) && AllTogether(plan, fates, a, i)
  }

  ghost predicate AllTogether(plan: seq<PlanNode>, fates: seq<Fate>, a: nat, i: nat)
    requires a <= i < |fates| <= |plan|
  {
    forall j :: a <= j <= i ==> Together(plan, fates, j, i)
  }

  /** The contexts between the nodes dealt with so far, from the first to the one at hand. */
  ghost predicate Flows(plan: seq<PlanNode>, start: Context, s: Report, ctxs: seq<Context>) {
    && |s.fates| == s.reached <= |plan| && |ctxs| == s.reached + 1
    && ctxs[0] == start && ctxs[s.reached] == s.context
    && (forall i :: 0 <= i < s.reached ==> Goes(plan, s.fates, ctxs, i))
  }

  ghost predicate Goes(plan: seq<PlanNode>, fates: seq<Fate>, ctxs: seq<Context>, i: nat)
    requires i < |fates| < |ctxs| && |fates| <= |plan|
  {
    Passes(plan[i], fates[i], ctxs[i], ctxs[i + 1]) && (fates[i].Grouped? ==> Branches(plan, fates, ctxs, i))
  }

  /** Later nodes change nothing about how the context went before them. */
  lemma GoesStill(plan: seq<PlanNode>, fates: seq<Fate>, ctxs: seq<Context>, more: seq<Fate>, rest: seq<Context>, i: nat)
    requires i < |fates| && |ctxs| == |fates| + 1 && |rest| == |more| && |fates| + |more| <= |plan|
    requires Goes(plan, fates, ctxs, i)
    ensures Goes(plan, fates + more, ctxs + rest, i)
  {
    if fates[i].Grouped? {
      var a :| 0 <= a <= i && fates[i].ctx == ctxs[a].(budget := fates[i].ctx.budget) && AllTogether(plan, fates, a, i);
      forall j | a <= j <= i ensures Together(plan, fates + more, j, i) {
        assert Together(plan, fates, j, i);
      }
      assert (ctxs + rest)[a] == ctxs[a];
    }
  }

  /** One more node. */
  lemma FlowsOn(plan: seq<PlanNode>, start: Context, s: Report, next: Report, ctxs: seq<Context>, fate: Fate)
    requires Flows(plan, start, s, ctxs) && s.reached < |plan| && !fate.Grouped?
    requires next.reached == s.reached + 1 && next.fates == s.fates + [fate]
    requires Passes(plan[s.reached], fate, s.context, next.context)
    ensures Flows(plan, start, next, ctxs + [next.context])
  {
    forall i | 0 <= i < next.reached ensures Goes(plan, next.fates, ctxs + [next.context], i) {
      if i < s.reached {
        GoesStill(plan, s.fates, ctxs, [fate], [next.context], i);
      }
    }
  }

  /** The contexts between the branches of a batch, as they are merged one after the other. */
  function Merges(base: Context, afters: seq<Context>): (rest: seq<Context>)
    ensures |rest| == |afters|
  {
    seq(|afters|, k requires 0 <= k < |afters| => MergeAll(base, afters[..k + 1]))
  }

  lemma SameBase(merged: Context, branch: Context, base: Context, own: Context)
    requires own == base.(budget := own.budget)
    ensures MergeOne(merged, branch, own) == MergeOne(merged, branch, base)
  {
  }

  lemma MergeNextOne(base: Context, afters: seq<Context>, k: nat, own: Context)
    requires k < |afters| && own == base.(budget := own.budget)
    ensures MergeAll(base, afters[..k + 1]) == MergeOne(MergeAll(base, afters[..k]), afters[k], own)
  {
    assert afters[..k + 1][..k] == afters[..k] && afters[..k + 1][k] == afters[k];
    MergeLast(base, afters[..k + 1]);
    SameBase(MergeAll(base, afters[..k]), afters[k], base, own);
  }

  lemma MergeLast(base: Context, afters: seq<Context>)
    requires afters != []
    ensures MergeAll(base, afters) == MergeOne(MergeAll(base, afters[..|afters| - 1]), afters[|afters| - 1], base)
  {
  }

  lemma MergesEnd(base: Context, branches: seq<Branch>, ctxs: seq<Context>)
    requires branches != []
    ensures var all := ctxs + Merges(base, Afters(branches)); all[|all| - 1] == MergeAll(base, Afters(branches))
  {
    assert Afters(branches)[..|branches|] == Afters(branches);
  }

  /** A batch that returned. */
  lemma BatchFlows(plan: seq<PlanNode>, start: Context, s: Report, next: Report, ctxs: seq<Context>, own: seq<Context>,
                   branches: seq<Branch>, struck: set<nat>)
    requires Flows(plan, start, s, ctxs) && 0 < |branches| == |own| && s.reached + |branches| <= |plan|
    requires forall k :: 0 <= k < |own| ==> own[k] == s.context.(budget := own[k].budget)
    requires forall i :: s.reached <= i < s.reached + |branches| ==> plan[i].group == plan[s.reached].group
    requires next.reached == s.reached + |branches| && next.fates == s.fates + BatchFates(own, branches, struck)
    requires next.context == MergeAll(s.context, Afters(branches))
    ensures Flows(plan, start, next, ctxs + Merges(s.context, Afters(branches)))
  {
    var more, rest := BatchFates(own, branches, struck), Merges(s.context, Afters(branches));
    MergesEnd(s.context, branches, ctxs);
    forall i | 0 <= i < next.reached ensures Goes(plan, next.fates, ctxs + rest, i) {
      OneGoes(plan, s.fates, ctxs, s.context, own, branches, struck, i);
    }
  }

  lemma OneGoes(plan: seq<PlanNode>, fates: seq<Fate>, ctxs: seq<Context>, base: Context, own: seq<Context>,
                branches: seq<Branch>, struck: set<nat>, i: nat)
    requires i < |fates| + |branches| && |branches| == |own| && |fates| + |branches| <= |plan|
    requires |ctxs| == |fates| + 1 && ctxs[|fates|] == base
    requires forall k :: 0 <= k < |own| ==> own[k] == base.(budget := own[k].budget)
    requires forall j :: |fates| <= j < |fates| + |branches| ==> plan[j].group == plan[|fates|].group
    requires i < |fates| ==> Goes(plan, fates, ctxs, i)
    ensures Goes(plan, fates + BatchFates(own, branches, struck), ctxs + Merges(base, Afters(branches)), i)
  {
    if i < |fates| {
      GoesStill(plan, fates, ctxs, BatchFates(own, branches, struck), Merges(base, Afters(branches)), i);
    } else {
      MemberGoes(plan, fates, ctxs, base, own, branches, struck, i - |fates|);
    }
  }

  lemma MemberGoes(plan: seq<PlanNode>, fates: seq<Fate>, ctxs: seq<Context>, base: Context, own: seq<Context>,
                   branches: seq<Branch>, struck: set<nat>, k: nat)
    requires k < |branches| == |own| && |fates| + |branches| <= |plan| && |ctxs| == |fates| + 1 && ctxs[|fates|] == base
    requires own[k] == base.(budget := own[k].budget)
    requires forall j :: |fates| <= j < |fates| + |branches| ==> plan[j].group == plan[|fates|].group
    ensures Goes(plan, fates + BatchFates(own, branches, struck), ctxs + Merges(base, Afters(branches)), |fates| + k)
  {
    var all, path := fates + BatchFates(own, branches, struck), ctxs + Merges(base, Afters(branches));
    var i := |fates| + k;
    MergeNextOne(base, Afters(branches), k, own[k]);
    assert all[i] == Grouped(own[k], branches[k], k in struck);
    assert path[i + 1] == MergeAll(base, Afters(branches)[..k + 1]);
    assert path[i] == MergeAll(base, Afters(branches)[..k]) by {
      if k == 0 {
        assert Afters(branches)[..0] == [];
      }
    }
    forall j | |fates| <= j <= i ensures Together(plan, all, j, i) {}
    assert AllTogether(plan, all, |fates|, i) && path[|fates|] == base;
  }

  // ---- The run -----------------------------------------------------------------------------

  ghost predicate SomeFlow(plan: seq<PlanNode>, start: Context, s: Report) {
    exists ctxs :: Flows(plan, start, s, ctxs)
  }

  ghost predicate FlowsAfter(plan: seq<PlanNode>, start: Context, next: (Report, Go)) {
    SomeFlow(plan, start, next.0)
  }

  lemma GroupFlows(env: Env, wait: Wait, cuts: (nat, Context) -> Cut, plan: seq<PlanNode>, start: Context, s: Report, batch: seq<PlanNode>)
    requires s.reached < |plan| && Completes(wait) && SomeFlow(plan, start, s)
    requires batch == BatchAt(plan, s) && |batch| > 1 && BatchOf(env, wait, cuts, batch, s).1 != Raise
    ensures FlowsAfter(plan, start, BatchOf(env, wait, cuts, batch, s))
  {
    OneGroup(plan, s, batch);
    assert FlowsAfter(plan, start, (s, Onward));
    EndFlows(plan, start, s, batch, EndOf(TasksOf(env, cuts, s.reached, batch, s.context), s.context.accepted, wait));
  }

  lemma EndFlows(plan: seq<PlanNode>, start: Context, s: Report, batch: seq<PlanNode>, end: BatchEnd)
    requires s.reached < |plan| && FlowsAfter(plan, start, (s, Onward)) && batch == BatchAt(plan, s)
    requires |end.branches| == |batch| && (end.Done? ==> AllFinished(end.branches)) && TakeIn(batch, s, end).1 != Raise
    requires forall k :: 0 <= k < |batch| ==> batch[k].group == plan[s.reached].group
    ensures FlowsAfter(plan, start, TakeIn(batch, s, end))
  {
    var ctxs :| Flows(plan, start, s, ctxs);
    forall i | s.reached <= i < s.reached + |batch| ensures plan[i].group == plan[s.reached].group {
      assert plan[i] == batch[i - s.reached];
    }
    BatchFlows(plan, start, s, TakeIn(batch, s, end).0, ctxs, BranchContexts(s.context, |batch|), end.branches, end.struck);
  }

  lemma OneFlows(plan: seq<PlanNode>, start: Context, s: Report, next: Report, fate: Fate)
    requires SomeFlow(plan, start, s) && s.reached < |plan| && !fate.Grouped?
    requires next.reached == s.reached + 1 && next.fates == s.fates + [fate]
    requires Passes(plan[s.reached], fate, s.context, next.context)
    ensures SomeFlow(plan, start, next)
  {
    var ctxs :| Flows(plan, start, s, ctxs);
    FlowsOn(plan, start, s, next, ctxs, fate);
  }

  lemma CallFlows(env: Env, wait: Wait, cuts: (nat, Context) -> Cut, plan: seq<PlanNode>, start: Context, s: Report, batch: seq<PlanNode>)
    requires s.reached < |plan| && Completes(wait) && SomeFlow(plan, start, s)
    requires batch == BatchAt(plan, s) && CallOf(env, wait, cuts, batch, s).1 != Raise
    ensures FlowsAfter(plan, start, CallOf(env, wait, cuts, batch, s))
  {
    if |batch| > 1 {
      GroupFlows(env, wait, cuts, plan, start, s, batch);
    } else {
      OneFlows(plan, start, s, SingleOf(env, plan[s.reached], s).0, Ran(s.context, RunNode(env, s.reached, plan[s.reached], s.context)));
    }
  }

  /** Every turn passes the context on. */
  lemma TurnFlows(env: Env, wait: Wait, cuts: (nat, Context) -> Cut, plan: seq<PlanNode>, start: Context, s: Report)
    requires s.reached < |plan| && Completes(wait) && SomeFlow(plan, start, s)
    requires TurnOf(env, wait, cuts, plan, s).1 != Raise
    ensures FlowsAfter(plan, start, TurnOf(env, wait, cuts, plan, s))
  {
    var node := plan[s.reached];
    if exists d :: d in node.dependencies && d !in s.completed {
      OneFlows(plan, start, s, SkippedOf(node, s), Skipped);
    } else if s.context.accepted && node.fallbackFor.Some? {
      OneFlows(plan, start, s, UnneededOf(node, s), Unneeded(s.context));
    } else {
      CallFlows(env, wait, cuts, plan, start, s, BatchAt(plan, s));
    }
  }

  /** The result adds its own three outcomes, the last of them only where no node left one for it. */
  ghost predicate Concludes(before: Context, after: Context) {
    var own := [Outcome("fetch_attempt_logging", Applied, "ledger"), Outcome("timeout_diagnostics", Applied, "executor")];
    var expiry := Outcome("cache_expiry_check", NotApplicable, "cache");
    var checked := exists i :: 0 <= i < |before.outcomes| && before.outcomes[i].capability == "cache_expiry_check";
    after == before.(outcomes := before.outcomes + if checked then own else own + [expiry])
  }

  /** The result's context is what went through all nodes dealt with, and the result's own outcomes. */
  ghost predicate Threaded(plan: seq<PlanNode>, start: Context, r: Report) {
    exists before :: SomeFlow(plan, start, r.(context := before)) && Concludes(before, r.context)
  }

  lemma CloseConcludes(ctx: Context)
    ensures Concludes(ctx, CloseRun(ctx))
  {
    var own := [Outcome("fetch_attempt_logging", Applied, "ledger"), Outcome("timeout_diagnostics", Applied, "executor")];
    OwnAreOthers();
    OthersAddNothing(ctx.outcomes, own, "cache_expiry_check");
    assert ctx.outcomes + own + [Outcome("cache_expiry_check", NotApplicable, "cache")]
           == ctx.outcomes + (own + [Outcome("cache_expiry_check", NotApplicable, "cache")]);
  }

  lemma OthersAddNothing(outcomes: seq<Outcome>, own: seq<Outcome>, capability: string)
    requires forall k :: 0 <= k < |own| ==> own[k].capability != capability
    ensures HasOutcome(outcomes + own, 0, capability) <==> exists i :: 0 <= i < |outcomes| && outcomes[i].capability == capability
  {
    var all := outcomes + own;
    forall k | |outcomes| <= k < |all| ensures all[k].capability != capability {
      assert all[k] == own[k - |outcomes|];
    }
    forall k | 0 <= k < |outcomes| ensures all[k] == outcomes[k] {}
  }

  lemma OwnAreOthers()
    ensures "fetch_attempt_logging" != "cache_expiry_check" && "timeout_diagnostics" != "cache_expiry_check"
  {
    assert "fetch_attempt_logging"[0] != "cache_expiry_check"[0] && "timeout_diagnostics"[0] != "cache_expiry_check"[0];
  }

  lemma {:induction false} RunFlows(env: Env, waits: nat -> Wait, cuts: (nat, Context) -> Cut, plan: seq<PlanNode>,
                                    start: Context, s: Report, go: Go)
    requires forall t: nat :: Completes(waits(t))
    requires go != Raise ==> SomeFlow(plan, start, s)
    requires s.status.None? && s.reached <= |plan|
    ensures var r := RunFrom(env, waits, cuts, plan, s, go); r.status.Some? ==> Threaded(plan, start, r)
    decreases |plan| - s.reached, go == Onward
  {
    if go == Raise {
    } else if s.reached == |plan| || go == Stop {
      CloseFlows(plan, start, s);
    } else {
      var next := TurnOf(env, waits(s.reached), cuts, plan, s);
      StatusIsLast(env, waits(s.reached), cuts, plan, s);
      if next.1 != Raise {
        TurnFlows(env, waits(s.reached), cuts, plan, start, s);
      }
      RunFlows(env, waits, cuts, plan, start, next.0, next.1);
    }
  }

  lemma CloseFlows(plan: seq<PlanNode>, start: Context, s: Report)
    requires SomeFlow(plan, start, s)
    ensures Threaded(plan, start, s.(context := CloseRun(s.context), status := Some(StatusOf(CloseRun(s.context), s.flags))))
  {
    var r := s.(context := CloseRun(s.context), status := Some(StatusOf(CloseRun(s.context), s.flags)));
    CloseConcludes(s.context);
    var ctxs :| Flows(plan, start, s, ctxs);
    assert Flows(plan, start, r.(context := s.context), ctxs);
  }

  /** Every run that returns threads its context through its nodes. */
  lemma RunIsThreaded(env: Env, waits: nat -> Wait, cuts: (nat, Context) -> Cut, plan: seq<PlanNode>, start: Context)
    requires forall t: nat :: Completes(waits(t))
    ensures var r := RunOf(env, waits, cuts, plan, start); r.status.Some? ==> Threaded(plan, start, r)
  {
    assert Flows(plan, start, Begin(start), [start]);
    RunFlows(env, waits, cuts, plan, start, Begin(start), Onward);
  }
}
