/**
 What a run's status says of its nodes: the trouble each node met, told by the environment's answers, and
 how the status and the end of the run follow from it.
 */
module Verdict {
  import opened Common
  import opened Plan
  import opened Context
  import opened NodeRun
  import opened Batch
  import opened Executor
  import opened Fates

  // ---- The calls of one node, from the environment's side ----------------------------------

  predicate HasRoom(ctx: Context) {
    |ctx.attempts| < ctx.budget.attempts
  }

  /** The contexts of a node's successive calls: each call but the last was answered by an error that was retried. */
  ghost predicate Retried(env: Env, tick: nat, node: PlanNode, ctxs: seq<Context>) {
    && 0 < |ctxs| <= node.retries + 1
    && (forall r :: 0 <= r < |ctxs| - 1 ==> Retries(env, tick, node, r, ctxs[r], ctxs[r + 1]))
  }

  ghost predicate Retries(env: Env, tick: nat, node: PlanNode, r: nat, ctx: Context, next: Context) {
    && HasRoom(ctx) && env.pause(tick, r) == Slept
    && env.adapter(tick, r, node, ctx) == Reply(next, AdapterError(true))
  }

  /** The last of a node's calls was answered like this. */
  ghost predicate Replied(env: Env, tick: nat, node: PlanNode, ctx: Context, raised: Raised) {
    exists ctxs :: Retried(env, tick, node, ctxs) && ctxs[0] == ctx && LastReply(env, tick, node, ctxs, raised)
  }

  /** An error that may be retried is the last answer only when no retry is left. */
  ghost predicate LastReply(env: Env, tick: nat, node: PlanNode, ctxs: seq<Context>, raised: Raised)
    requires ctxs != []
  {
    var r, last := |ctxs| - 1, ctxs[|ctxs| - 1];
    HasRoom(last) && env.adapter(tick, r, node, last).raised == raised && (raised == AdapterError(true) ==> r == node.retries)
  }

  /** The number of attempts was reached before a call, or the deadline passed in a back-off. */
  ghost predicate RanOut(env: Env, tick: nat, node: PlanNode, ctx: Context) {
    exists ctxs :: Retried(env, tick, node, ctxs) && ctxs[0] == ctx && (!HasRoom(ctxs[|ctxs| - 1]) || PausedOut(env, tick, node, ctxs))
  }

  ghost predicate PausedOut(env: Env, tick: nat, node: PlanNode, ctxs: seq<Context>)
    requires ctxs != []
  {
    var r, last := |ctxs| - 1, ctxs[|ctxs| - 1];
    && HasRoom(last) && r < node.retries && env.pause(tick, r) == DeadlinePassed
    && env.adapter(tick, r, node, last).raised == AdapterError(true)
  }

  /** What the retry loop ends with is what its last call ends with. */
  lemma {:induction false} ChainEnds(env: Env, tick: nat, node: PlanNode, ctxs: seq<Context>, i: nat)
    requires Retried(env, tick, node, ctxs) && i < |ctxs|
    ensures var last := Attempts(env, tick, node, ctxs[|ctxs| - 1], |ctxs| - 1);
            var t := Attempts(env, tick, node, ctxs[i], i);
            t.raised == last.raised && t.after == last.after && |t.calls| == |ctxs| - 1 - i + |last.calls|
    decreases |ctxs| - i
  {
    if i < |ctxs| - 1 {
      assert Retries(env, tick, node, i, ctxs[i], ctxs[i + 1]);
      ChainEnds(env, tick, node, ctxs, i + 1);
    }
  }

  /** The last call is not retried: what was answered, or what ended the waiting. */
  ghost predicate Ends(env: Env, tick: nat, node: PlanNode, ctxs: seq<Context>, t: Tried)
    requires ctxs != []
  {
    var r, last := |ctxs| - 1, ctxs[|ctxs| - 1];
    var reply := env.adapter(tick, r, node, last);
    if !HasRoom(last) then t.raised == OverBudget && t.after == last && |t.calls| == r
    else
      && t.after == reply.after && |t.calls| == r + 1
      && if reply.raised == AdapterError(true) && r < node.retries
         then (match env.pause(tick, r)
               case Slept => false
               case DeadlinePassed => t.raised == TimedOut
               case CancelledAsleep => t.raised == TaskCancelled)
         else t.raised == reply.raised
  }

  /**
   The retry loop, told by its history: it calls again exactly after an error that may be retried, while
   retries and attempts are left and the back-off comes to its end.
   */
  lemma {:induction false} AttemptsTold(env: Env, tick: nat, node: PlanNode, ctxs: seq<Context>) returns (all: seq<Context>)
    requires Retried(env, tick, node, ctxs)
    ensures Retried(env, tick, node, all) && ctxs <= all
    ensures Ends(env, tick, node, all, Attempts(env, tick, node, all[0], 0))
    decreases node.retries + 1 - |ctxs|
  {
    var r, last := |ctxs| - 1, ctxs[|ctxs| - 1];
    var reply := env.adapter(tick, r, node, last);
    if HasRoom(last) && reply.raised == AdapterError(true) && r < node.retries && env.pause(tick, r) == Slept {
      RetriedOnce(env, tick, node, ctxs);
      all := AttemptsTold(env, tick, node, ctxs + [reply.after]);
    } else {
      all := ctxs;
      ChainEnds(env, tick, node, ctxs, 0);
    }
  }

  lemma RetriedOnce(env: Env, tick: nat, node: PlanNode, ctxs: seq<Context>)
    requires Retried(env, tick, node, ctxs) && |ctxs| <= node.retries
    requires var r, last := |ctxs| - 1, ctxs[|ctxs| - 1];
             HasRoom(last) && env.adapter(tick, r, node, last).raised == AdapterError(true) && env.pause(tick, r) == Slept
    ensures Retried(env, tick, node, ctxs + [env.adapter(tick, |ctxs| - 1, node, ctxs[|ctxs| - 1]).after])
  {
    var more := ctxs + [env.adapter(tick, |ctxs| - 1, node, ctxs[|ctxs| - 1]).after];
    forall r | 0 <= r < |more| - 1 ensures Retries(env, tick, node, r, more[r], more[r + 1]) {
      if r < |ctxs| - 1 {
        assert Retries(env, tick, node, r, ctxs[r], ctxs[r + 1]);
      }
    }
  }

  /** The history of a node's calls is unique, so what one history ends with is what the node met. */
  lemma RepliedIsRaised(env: Env, tick: nat, node: PlanNode, ctx: Context, raised: Raised)
    requires Replied(env, tick, node, ctx, raised)
    ensures Attempts(env, tick, node, ctx, 0).raised == raised
  {
    var ctxs :| Retried(env, tick, node, ctxs) && ctxs[0] == ctx && LastReply(env, tick, node, ctxs, raised);
    ChainEnds(env, tick, node, ctxs, 0);
  }

  lemma RanOutIsRaised(env: Env, tick: nat, node: PlanNode, ctx: Context)
    requires RanOut(env, tick, node, ctx)
    ensures Attempts(env, tick, node, ctx, 0).raised in {OverBudget, TimedOut}
  {
    var ctxs :| Retried(env, tick, node, ctxs) && ctxs[0] == ctx
                && (!HasRoom(ctxs[|ctxs| - 1]) || PausedOut(env, tick, node, ctxs));
    ChainEnds(env, tick, node, ctxs, 0);
  }

  lemma RaisedIsReplied(env: Env, tick: nat, node: PlanNode, ctx: Context)
    ensures var raised := Attempts(env, tick, node, ctx, 0).raised;
            || Replied(env, tick, node, ctx, raised)
            || (RanOut(env, tick, node, ctx) && raised in {OverBudget, TimedOut})
            || raised == TaskCancelled
  {
    var all := AttemptsTold(env, tick, node, [ctx]);
    assert all[0] == ctx;
    var t, r, last := Attempts(env, tick, node, ctx, 0), |all| - 1, all[|all| - 1];
    if HasRoom(last) && !PausedOut(env, tick, node, all) && t.raised != TaskCancelled {
      assert LastReply(env, tick, node, all, t.raised);
    }
  }

  // ---- The trouble a node met --------------------------------------------------------------

  datatype Trouble = ByPolicy | ByAuth | ByAbsence | ByLimit | ByDependency | ByFailure

  /** The adapter may be called at all. */
  predicate Callable(env: Env, tick: nat, node: PlanNode) {
    node.adapter in env.registered && Approved(env, node) && env.deadlineLeft(tick) > 0.0
  }

  predicate Approved(env: Env, node: PlanNode) {
    node.requiresApproval ==> node.capability in env.approved
  }

  /** A node left alone meets this trouble. */
  ghost predicate Meets(env: Env, tick: nat, node: PlanNode, ctx: Context, trouble: Trouble) {
    match trouble
    case ByPolicy =>
      || (node.adapter in env.registered && !Approved(env, node))
      || (Callable(env, tick, node) && exists reasons :: Replied(env, tick, node, ctx, PolicyBlock(reasons)))
    case ByAuth =>
      Callable(env, tick, node) && (Replied(env, tick, node, ctx, AuthExpired) || Replied(env, tick, node, ctx, AuthRequired))
    case ByAbsence => Callable(env, tick, node) && Replied(env, tick, node, ctx, NotFound)
    case ByLimit =>
      || (node.adapter in env.registered && Approved(env, node) && env.deadlineLeft(tick) <= 0.0)
      || (Callable(env, tick, node) && (|| RanOut(env, tick, node, ctx) || Replied(env, tick, node, ctx, OverBudget)
                                        || Replied(env, tick, node, ctx, TimedOut)))
    case ByDependency =>
      || node.adapter !in env.registered
      || (Callable(env, tick, node) && Replied(env, tick, node, ctx, NoDependency))
    case ByFailure =>
      Callable(env, tick, node) && (|| Replied(env, tick, node, ctx, AdapterError(true))
                                    || Replied(env, tick, node, ctx, AdapterError(false))
                                    || Replied(env, tick, node, ctx, BadValue))
  }

  /** What an adapter that was cancelled may answer instead. */
  predicate AnswersWith(raised: Raised, trouble: Trouble) {
    match trouble
    case ByPolicy => raised.PolicyBlock?
    case ByAuth => raised.AuthExpired? || raised.AuthRequired?
    case ByAbsence => raised.NotFound?
    case ByLimit => raised.OverBudget? || raised.TimedOut?
    case ByDependency => raised.NoDependency?
    case ByFailure => raised.AdapterError? || raised.BadValue?
  }

  function Flag(flags: Flags, trouble: Trouble): bool {
    match trouble
    case ByPolicy => flags.policyBlocked
    case ByAuth => flags.authRequired
    case ByAbsence => flags.notFound
    case ByLimit => flags.budgetExhausted
    case ByDependency => flags.dependencyMissing
    case ByFailure => flags.failed
  }

  /** The run ends with the node that meets it. */
  predicate Fatal(trouble: Trouble) {
    trouble in {ByPolicy, ByAuth, ByAbsence, ByLimit}
  }

  lemma {:induction false} AttemptsMeet(env: Env, tick: nat, node: PlanNode, ctx: Context, trouble: Trouble)
    requires Callable(env, tick, node)
    ensures Meets(env, tick, node, ctx, trouble) <==> AnswersWith(Attempts(env, tick, node, ctx, 0).raised, trouble)
  {
    var raised := Attempts(env, tick, node, ctx, 0).raised;
    if Meets(env, tick, node, ctx, trouble) {
      MeetsAnswers(env, tick, node, ctx, trouble);
    }
    if AnswersWith(raised, trouble) {
      RaisedIsReplied(env, tick, node, ctx);
    }
  }

  lemma MeetsAnswers(env: Env, tick: nat, node: PlanNode, ctx: Context, trouble: Trouble)
    requires Callable(env, tick, node) && Meets(env, tick, node, ctx, trouble)
    ensures AnswersWith(Attempts(env, tick, node, ctx, 0).raised, trouble)
  {
    if RanOut(env, tick, node, ctx) {
      RanOutIsRaised(env, tick, node, ctx);
    }
    forall raised | Replied(env, tick, node, ctx, raised) ensures Attempts(env, tick, node, ctx, 0).raised == raised {
      RepliedIsRaised(env, tick, node, ctx, raised);
    }
  }

  /** How the handlers turn an answer into a result: its own flag, and a stop for what is fatal. */
  lemma ConcludeFlags(node: PlanNode, before: Context, t: Tried, trouble: Trouble)
    requires Conclude(node, before, t).ended.Finished?
    ensures var exec := Conclude(node, before, t).ended.exec;
            && (Flag(exec.flags, trouble) <==> AnswersWith(t.raised, trouble))
            && (exec.stop <==> exists other :: Fatal(other) && AnswersWith(t.raised, other))
  {
    var stop := Conclude(node, before, t).ended.exec.stop;
    assert stop ==> AnswersWith(t.raised, if t.raised.PolicyBlock? then ByPolicy
                                          else if t.raised.AuthExpired? || t.raised.AuthRequired? then ByAuth
                                          else if t.raised.NotFound? then ByAbsence else ByLimit);
  }

  /** A node that ended with a result carries exactly the flags of the trouble it met, and stops the run if that is fatal. */
  lemma NodeFlags(env: Env, tick: nat, node: PlanNode, ctx: Context, trouble: Trouble)
    requires RunNode(env, tick, node, ctx).ended.Finished?
    ensures var exec := RunNode(env, tick, node, ctx).ended.exec;
            && (Flag(exec.flags, trouble) <==> Meets(env, tick, node, ctx, trouble))
            && (exec.stop <==> exists other :: Fatal(other) && Meets(env, tick, node, ctx, other))
  {
    if node.adapter in env.registered {
      forall other ensures Meets(env, tick, node, ctx, other) <==> AnswersWith(Try(env, tick, node, ctx).raised, other) {
        if Callable(env, tick, node) {
          AttemptsMeet(env, tick, node, ctx, other);
        }
      }
      ConcludeFlags(node, ctx, Try(env, tick, node, ctx), trouble);
    }
  }

  // ---- The trouble of a run ----------------------------------------------------------------

  /** The trouble of a node that was dealt with; a branch that was cancelled met what its adapter answered then. */
  ghost predicate Met(env: Env, cuts: (nat, Context) -> Cut, i: nat, node: PlanNode, fate: Fate, trouble: Trouble) {
    match fate
    case Ran(ctx, _) => Meets(env, i, node, ctx, trouble)
    case Grouped(ctx, _, struck) =>
      if !struck then Meets(env, i, node, ctx, trouble)
      else (match cuts(i, ctx)
            case Survives => Meets(env, i, node, ctx, trouble)
            case CutOff(_, _) => false
            case Answers(_, _, raised) => AnswersWith(raised, trouble))
    case _ => false
  }

  lemma NoTrouble(env: Env, tick: nat, node: PlanNode, ctx: Context, trouble: Trouble)
    requires RunNode(env, tick, node, ctx).ended.Cancelled?
    ensures !Meets(env, tick, node, ctx, trouble)
  {
    AttemptsMeet(env, tick, node, ctx, trouble);
  }

  lemma BranchFlags(env: Env, cut: Cut, tick: nat, node: PlanNode, ctx: Context, trouble: Trouble)
    requires HitBy(node, ctx, RunNode(env, tick, node, ctx), cut).ended.Finished?
    ensures var exec := HitBy(node, ctx, RunNode(env, tick, node, ctx), cut).ended.exec;
            match cut
            case Survives =>
              && (Flag(exec.flags, trouble) <==> Meets(env, tick, node, ctx, trouble))
              && (exec.stop <==> exists other :: Fatal(other) && Meets(env, tick, node, ctx, other))
            case CutOff(_, _) => !Flag(exec.flags, trouble) && !exec.stop
            case Answers(_, _, raised) =>
              && (Flag(exec.flags, trouble) <==> AnswersWith(raised, trouble))
              && (exec.stop <==> exists other :: Fatal(other) && AnswersWith(raised, other))
  {
    match cut
    case Survives =>
      if RunNode(env, tick, node, ctx).ended.Finished? {
        NodeFlags(env, tick, node, ctx, trouble);
      } else {
        forall other ensures !Meets(env, tick, node, ctx, other) {
          NoTrouble(env, tick, node, ctx, other);
        }
      }
    case CutOff(_, _) =>
    case Answers(after, failed, raised) =>
      if raised != TaskCancelled {
        ConcludeFlags(node, ctx, AnswerOf(node, cut), trouble);
      }
  }

  /** The flags of a node's fate are its trouble, and it ends the run exactly if that is fatal. */
  lemma FateMet(env: Env, cuts: (nat, Context) -> Cut, plan: seq<PlanNode>, r: Report, i: nat, trouble: Trouble)
    requires Told(env, cuts, plan, r) && i < r.reached
    ensures Flag(FateFlags(r.fates[i]), trouble) <==> Met(env, cuts, i, plan[i], r.fates[i], trouble)
    ensures Halts(r.fates[i]) <==> exists other :: Fatal(other) && Met(env, cuts, i, plan[i], r.fates[i], other)
  {
    assert Explained(env, cuts, plan, r, i);
    match r.fates[i]
    case Ran(ctx, _) => NodeFlags(env, i, plan[i], ctx, trouble);
    case Grouped(ctx, end, struck) => GroupedMet(env, cuts, i, plan[i], ctx, end, struck, trouble);
    case _ =>
  }

  lemma GroupedMet(env: Env, cuts: (nat, Context) -> Cut, i: nat, node: PlanNode, ctx: Context, end: Branch, struck: bool, trouble: Trouble)
    requires end == if struck then HitBy(node, ctx, RunNode(env, i, node, ctx), cuts(i, ctx)) else AsIs(RunNode(env, i, node, ctx))
    requires end.ended.Finished?
    ensures var fate := Grouped(ctx, end, struck);
            && (Flag(FateFlags(fate), trouble) <==> Met(env, cuts, i, node, fate, trouble))
            && (Halts(fate) <==> exists other :: Fatal(other) && Met(env, cuts, i, node, fate, other))
  {
    var fate := Grouped(ctx, end, struck);
    if struck {
      BranchFlags(env, cuts(i, ctx), i, node, ctx, trouble);
      match cuts(i, ctx)
      case CutOff(_, _) =>
      case Survives => assert forall other :: Met(env, cuts, i, node, fate, other) <==> Meets(env, i, node, ctx, other);
      case Answers(_, _, raised) => assert forall other :: Met(env, cuts, i, node, fate, other) <==> AnswersWith(raised, other);
    } else {
      NodeFlags(env, i, node, ctx, trouble);
      assert forall other :: Met(env, cuts, i, node, fate, other) <==> Meets(env, i, node, ctx, other);
    }
  }

  lemma {:induction false} SomeFlag(fates: seq<Fate>, trouble: Trouble)
    ensures Flag(FlagsOf(fates), trouble) <==> exists i :: 0 <= i < |fates| && Flag(FateFlags(fates[i]), trouble)
    decreases |fates|
  {
    if fates != [] {
      SomeFlag(fates[..|fates| - 1], trouble);
    }
  }

  /** Some node that was dealt with met this trouble. */
  ghost predicate SomeMet(env: Env, cuts: (nat, Context) -> Cut, plan: seq<PlanNode>, r: Report, trouble: Trouble)
    requires r.reached <= |plan| && r.reached <= |r.fates|
  {
    exists i: nat :: i < r.reached && Met(env, cuts, i, plan[i], r.fates[i], trouble)
  }

  lemma FlagIsMet(env: Env, cuts: (nat, Context) -> Cut, plan: seq<PlanNode>, r: Report, trouble: Trouble)
    requires Told(env, cuts, plan, r) && Over(plan, r)
    ensures Flag(r.flags, trouble) <==> SomeMet(env, cuts, plan, r, trouble)
  {
    SomeFlag(r.fates, trouble);
    forall i: nat | i < r.reached
      ensures Flag(FateFlags(r.fates[i]), trouble) <==> Met(env, cuts, i, plan[i], r.fates[i], trouble)
    {
      FateMet(env, cuts, plan, r, i, trouble);
    }
  }

  /**
   The status of a returned run.  With an accepted context it is a success exactly if every node
   completed, and else partial.  Without one it names the first trouble that any node met, a blocked policy
   before missing authentication, that before an absent resource, and that before a limit; and if no node
   met any of these, it tells whether there are artifacts, and whether something else went wrong.
   */
  ghost predicate Judged(env: Env, cuts: (nat, Context) -> Cut, plan: seq<PlanNode>, r: Report)
    requires r.reached <= |plan| && r.reached <= |r.fates|
  {
    var policy, auth := SomeMet(env, cuts, plan, r, ByPolicy), SomeMet(env, cuts, plan, r, ByAuth);
    var absent, limit := SomeMet(env, cuts, plan, r, ByAbsence), SomeMet(env, cuts, plan, r, ByLimit);
    var gap, failed := SomeMet(env, cuts, plan, r, ByDependency), SomeMet(env, cuts, plan, r, ByFailure);
    var fatal := policy || auth || absent || limit;
    if r.context.accepted then
      r.status == Some(if forall n :: n in plan ==> n.id in r.completed then Success else Partial)
    else
      && (r.status == Some(BlockedByPolicy) <==> policy)
      && (r.status == Some(NeedsAuth) <==> auth && !policy)
      && (r.status == Some(Missing) <==> absent && !policy && !auth)
      && (r.status == Some(OutOfBudget) <==> limit && !policy && !auth && !absent)
      && (r.status == Some(Partial) <==> !fatal && r.context.artifacts != [] && (gap || failed))
      && (r.status == Some(LowQuality) <==> !fatal && r.context.artifacts != [] && !gap && !failed)
      && (r.status == Some(NoDependencies) <==> !fatal && r.context.artifacts == [] && gap)
      && (r.status == Some(Failure) <==> !fatal && r.context.artifacts == [] && !gap)
  }

  lemma StatusTells(env: Env, cuts: (nat, Context) -> Cut, plan: seq<PlanNode>, r: Report)
    requires Told(env, cuts, plan, r) && Over(plan, r) && Settled(plan, r)
    ensures Judged(env, cuts, plan, r)
  {
    FlagIsMet(env, cuts, plan, r, ByPolicy);
    FlagIsMet(env, cuts, plan, r, ByAuth);
    FlagIsMet(env, cuts, plan, r, ByAbsence);
    FlagIsMet(env, cuts, plan, r, ByLimit);
    FlagIsMet(env, cuts, plan, r, ByDependency);
    FlagIsMet(env, cuts, plan, r, ByFailure);
  }

  /** The node met something that ends the run. */
  ghost predicate EndsRun(env: Env, cuts: (nat, Context) -> Cut, plan: seq<PlanNode>, r: Report, i: nat)
    requires i < |plan| && i < |r.fates|
  {
    exists trouble :: Fatal(trouble) && Met(env, cuts, i, plan[i], r.fates[i], trouble)
  }

  /**
   Where a returned run ended: at its last node, or with a node that met a blocked policy, missing
   authentication, an absent resource or a limit; and whatever was dealt with after such a node was a
   branch of its own group.
   */
  ghost predicate EndedRightly(env: Env, cuts: (nat, Context) -> Cut, plan: seq<PlanNode>, r: Report)
    requires r.reached <= |plan| && r.reached == |r.fates|
  {
    && (r.reached < |plan| ==> exists i :: 0 <= i < r.reached && EndsRun(env, cuts, plan, r, i))
    && (forall i, j :: 0 <= i < j < r.reached && EndsRun(env, cuts, plan, r, i) ==> Together(plan, r.fates, i, j))
  }

  lemma EndTells(env: Env, cuts: (nat, Context) -> Cut, plan: seq<PlanNode>, r: Report)
    requires Told(env, cuts, plan, r) && Over(plan, r)
    ensures EndedRightly(env, cuts, plan, r)
  {
    forall i | 0 <= i < r.reached ensures EndsRun(env, cuts, plan, r, i) <==> Halts(r.fates[i]) {
      FateMet(env, cuts, plan, r, i, ByPolicy);
    }
  }

  /** What a returned run answers. */
  ghost predicate RunAnswers(env: Env, cuts: (nat, Context) -> Cut, plan: seq<PlanNode>, r: Report) {
    r.reached <= |plan| && r.reached == |r.fates| && Judged(env, cuts, plan, r) && EndedRightly(env, cuts, plan, r)
  }

  /** Every run is told node by node, and a returned one answers by what its nodes met. */
  lemma RunIsAnswered(env: Env, waits: nat -> Wait, cuts: (nat, Context) -> Cut, plan: seq<PlanNode>, start: Context)
    requires Executable(plan) && forall t: nat :: Completes(waits(t))
    ensures var r := RunOf(env, waits, cuts, plan, start);
            Told(env, cuts, plan, r) && (r.status.Some? ==> Over(plan, r) && RunAnswers(env, cuts, plan, r))
  {
    var r := RunOf(env, waits, cuts, plan, start);
    RunIsTold(env, waits, cuts, plan, start);
    RunIsSafe(env, waits, cuts, plan, start);
    if r.status.Some? {
      StatusTells(env, cuts, plan, r);
      EndTells(env, cuts, plan, r);
    }
  }

  // ---- The outcome a node leaves -----------------------------------------------------------

  /** Adapters leave the recording of their node's outcome to the engine. */
  ghost predicate Silent(env: Env) {
    forall tick: nat, r: nat, node: PlanNode, ctx: Context :: env.adapter(tick, r, node, ctx).after.outcomes == ctx.outcomes
  }

  lemma {:induction false} AttemptsAreSilent(env: Env, tick: nat, node: PlanNode, ctx: Context, r: nat)
    requires Silent(env) && r <= node.retries
    ensures Attempts(env, tick, node, ctx, r).after.outcomes == ctx.outcomes
    decreases node.retries - r
  {
    if HasRoom(ctx) {
      var reply := env.adapter(tick, r, node, ctx);
      if reply.raised == AdapterError(true) && r < node.retries && env.pause(tick, r) == Slept {
        AttemptsAreSilent(env, tick, node, reply.after, r + 1);
      }
    }
  }

  /**
   The one outcome the engine then records for a node that ended with a result: applied if the adapter
   returned, blocked for a policy, a missing dependency for that, and failed for all other trouble.
   */
  lemma NodeOutcome(env: Env, tick: nat, node: PlanNode, ctx: Context)
    requires Silent(env) && RunNode(env, tick, node, ctx).ended.Finished?
    ensures var run := RunNode(env, tick, node, ctx);
            var status := if CallReturned(run.calls, node.id) then Applied
                          else if Meets(env, tick, node, ctx, ByPolicy) then Blocked
                          else if Meets(env, tick, node, ctx, ByDependency) then DependencyMissing
                          else FailedOutcome;
            run.after.outcomes == ctx.outcomes + [Outcome(node.capability, status, node.adapter)]
  {
    NodeShape(env, tick, node, ctx);
    NodeFlags(env, tick, node, ctx, ByPolicy);
    NodeFlags(env, tick, node, ctx, ByDependency);
    AttemptsAreSilent(env, tick, node, ctx, 0);
    if node.adapter in env.registered {
      ConcludeOutcome(node, ctx, Try(env, tick, node, ctx));
      ConcludeShape(node, ctx, Try(env, tick, node, ctx));
    }
  }

  lemma ConcludeOutcome(node: PlanNode, before: Context, t: Tried)
    requires t.after.outcomes == before.outcomes && Conclude(node, before, t).ended.Finished?
    ensures var run := Conclude(node, before, t);
            var status := if run.ended.exec.completed then Applied
                          else if run.ended.exec.flags.policyBlocked then Blocked
                          else if run.ended.exec.flags.dependencyMissing then DependencyMissing
                          else FailedOutcome;
            run.after.outcomes == before.outcomes + [Outcome(node.capability, status, node.adapter)]
  {
  }
}
