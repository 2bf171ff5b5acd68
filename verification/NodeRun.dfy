/** `_execute_node`, `_with_retries` and `_status` of `src/fetech/executor.py`. */
module NodeRun {
  import opened Common
  import opened Plan
  import opened Context

  // ---- What can happen ---------------------------------------------------------------------

  /** How an adapter call, or the code around it, ends. */
  datatype Raised =
    | Returned
    | OverBudget
    | PolicyBlock(reasons: seq<string>)
    | NoDependency
    | AuthExpired
    | AuthRequired
    | NotFound
    | TimedOut
    | TaskCancelled
    | AdapterError(retryable: bool)   // whether its code is one of the rule's retryable codes
    | BadValue
    | Unexpected

  datatype Reply = Reply(after: Context, raised: Raised)

  /** How the back-off before a retry ends: the deadline may pass, or the task may be cancelled. */
  datatype Pause = Slept | DeadlinePassed | CancelledAsleep

  /** Whether the events of a node reach the ledger, or an append fails before or after its calls. */
  datatype Log = Kept | LostBefore | LostAfter

  /**
   Everything the executor cannot see: the adapters, the approvals, the clock, the ledger.  The
   adapter's behaviour may depend on the node's position, the retry, the node and the context.
   */
  datatype Env = Env(
    registered: set<string>,
    approved: set<string>,
    deadlineLeft: nat -> real,
    adapter: (nat, nat, PlanNode, Context) -> Reply,
    pause: (nat, nat) -> Pause,
    log: nat -> Log)

  /** One adapter call, as seen from outside. */
  datatype Call = Call(id: NodeId, adapter: string, returned: bool)

  datatype Flags = Flags(dependencyMissing: bool, policyBlocked: bool, budgetExhausted: bool,
                         authRequired: bool, notFound: bool, failed: bool)
  {
    predicate Any() {
      dependencyMissing || policyBlocked || budgetExhausted || authRequired || notFound || failed
    }

    function Or(other: Flags): Flags {
      Flags(dependencyMissing || other.dependencyMissing, policyBlocked || other.policyBlocked,
            budgetExhausted || other.budgetExhausted, authRequired || other.authRequired,
            notFound || other.notFound, failed || other.failed)
    }
  }

  const NO_FLAGS := Flags(false, false, false, false, false, false)

  datatype NodeExecution = NodeExecution(completed: bool, flags: Flags, stop: bool)

  const COMPLETED := NodeExecution(true, NO_FLAGS, false)

  /**
   How a node ends: with a result, with an exception that leaves the executor, or cancelled.  An
   exception raised while a result was being reported still knows the flags of that result.
   */
  datatype Ended = Finished(exec: NodeExecution) | Raises(found: Flags) | Cancelled
  {
    function Flags(): Flags {
      match this
      case Finished(exec) => exec.flags
      case Raises(found) => found
      case Cancelled => NO_FLAGS
    }
  }

  /** `records` counts the attempts that were added only to record a passed deadline. */
  datatype NodeRun = NodeRun(after: Context, calls: seq<Call>, ended: Ended, records: nat)

  // ---- Context updates ---------------------------------------------------------------------

  function MarkRunning(ctx: Context, status: AttemptStatus, code: string): Context {
    if ctx.attempts == [] || ctx.attempts[|ctx.attempts| - 1].status != InProgress then ctx
    else ctx.(attempts := ctx.attempts[|ctx.attempts| - 1 :=
                ctx.attempts[|ctx.attempts| - 1].(status := status, failure := Some(code))])
  }

  /** Whether the deadline is recorded by an attempt of its own. */
  predicate Unrecorded(ctx: Context, attemptCount: nat) {
    |ctx.attempts| == attemptCount || ctx.attempts == []
  }

  /** The deadline always leaves a failed attempt behind. */
  function EnsureDeadlineAttempt(ctx: Context, node: PlanNode, attemptCount: nat): Context {
    var failed := Attempt(node.capability, FailedAttempt, Some("budget_exhausted"), map[], map[], map[]);
    if Unrecorded(ctx, attemptCount) then ctx.(attempts := ctx.attempts + [failed])
    else
      var last := ctx.attempts[|ctx.attempts| - 1];
      if last.status in {CancelledAttempt, Planned, InProgress}
      then ctx.(attempts := ctx.attempts[|ctx.attempts| - 1 := last.(status := FailedAttempt, failure := Some("budget_exhausted"))])
      else ctx
  }

  predicate HasOutcome(outcomes: seq<Outcome>, from: nat, capability: string) {
    exists i :: from <= i < |outcomes| && outcomes[i].capability == capability
  }

  function EnsureOutcome(ctx: Context, node: PlanNode, from: nat, status: OutcomeStatus): Context {
    if HasOutcome(ctx.outcomes, from, node.capability) then ctx
    else ctx.(outcomes := ctx.outcomes + [Outcome(node.capability, status, node.adapter)])
  }

  function Diagnose(ctx: Context, code: string): Context {
    ctx.(diagnostics := ctx.diagnostics + [code])
  }

  // ---- Retries -----------------------------------------------------------------------------

  datatype Tried = Tried(after: Context, calls: seq<Call>, raised: Raised, records: nat)

  /** `_with_retries` from retry `r` on. */
  function Attempts(env: Env, tick: nat, node: PlanNode, ctx: Context, r: nat): Tried
    requires r <= node.retries
    decreases node.retries - r
  {
    if |ctx.attempts| >= ctx.budget.attempts then Tried(ctx, [], OverBudget, 0)
    else
      var reply := env.adapter(tick, r, node, ctx);
      var calls := [Call(node.id, node.adapter, reply.raised == Returned)];
      if reply.raised != AdapterError(true) || r == node.retries then Tried(reply.after, calls, reply.raised, 0)
      else if env.pause(tick, r) != Slept then Tried(reply.after, calls, Woken(env.pause(tick, r)), 0)
      else
        var rest := Attempts(env, tick, node, reply.after, r + 1);
        Tried(rest.after, calls + rest.calls, rest.raised, rest.records)
  }

  function Woken(pause: Pause): Raised {
    if pause == CancelledAsleep then TaskCancelled else TimedOut
  }

  /** The same as the loop it is. */
  method WithRetries(env: Env, tick: nat, node: PlanNode, start: Context) returns (t: Tried)
    ensures t == Attempts(env, tick, node, start, 0)
  {
    var ctx, calls, r := start, [], 0;
    while true
      invariant r <= node.retries
      invariant Continues(Attempts(env, tick, node, start, 0), calls, Attempts(env, tick, node, ctx, r))
      decreases node.retries - r
    {
      if |ctx.attempts| >= ctx.budget.attempts {
        return Tried(ctx, calls, OverBudget, 0);
      }
      var reply := env.adapter(tick, r, node, ctx);
      ghost var before, here := calls, ctx;
      calls := calls + [Call(node.id, node.adapter, reply.raised == Returned)];
      if reply.raised != AdapterError(true) || r == node.retries {
        return Tried(reply.after, calls, reply.raised, 0);
      }
      if env.pause(tick, r) != Slept {
        return Tried(reply.after, calls, Woken(env.pause(tick, r)), 0);
      }
      ContinuesOnce(env, tick, node, here, r, before, Attempts(env, tick, node, start, 0));
      ctx, r := reply.after, r + 1;
    }
  }

  lemma ContinuesOnce(env: Env, tick: nat, node: PlanNode, ctx: Context, r: nat, calls: seq<Call>, whole: Tried)
    requires r < node.retries && |ctx.attempts| < ctx.budget.attempts
    requires env.adapter(tick, r, node, ctx).raised == AdapterError(true) && env.pause(tick, r) == Slept
    requires Continues(whole, calls, Attempts(env, tick, node, ctx, r))
    ensures Continues(whole, calls + [Call(node.id, node.adapter, false)],
                      Attempts(env, tick, node, env.adapter(tick, r, node, ctx).after, r + 1))
  {
    var rest := Attempts(env, tick, node, env.adapter(tick, r, node, ctx).after, r + 1);
    assert calls + ([Call(node.id, node.adapter, false)] + rest.calls) == calls + [Call(node.id, node.adapter, false)] + rest.calls;
  }

  /** What is left to do completes what was done. */
  ghost predicate Continues(whole: Tried, calls: seq<Call>, rest: Tried) {
    whole == Tried(rest.after, calls + rest.calls, rest.raised, rest.records)
  }

  /** All calls go to the node's adapter; only the last can have returned; at most one per retry. */
  lemma {:induction false} AttemptsShape(env: Env, tick: nat, node: PlanNode, ctx: Context, r: nat)
    requires r <= node.retries
    ensures var t := Attempts(env, tick, node, ctx, r);
            && |t.calls| <= node.retries - r + 1
            && (forall i :: 0 <= i < |t.calls| ==> t.calls[i].id == node.id && t.calls[i].adapter == node.adapter)
            && (forall i :: 0 <= i < |t.calls| - 1 ==> !t.calls[i].returned)
            && (t.raised == Returned <==> t.calls != [] && t.calls[|t.calls| - 1].returned)
    decreases node.retries - r
  {
    if |ctx.attempts| < ctx.budget.attempts {
      var reply := env.adapter(tick, r, node, ctx);
      if reply.raised == AdapterError(true) && r < node.retries && env.pause(tick, r) == Slept {
        AttemptsShape(env, tick, node, reply.after, r + 1);
      }
    }
  }

  // ---- One node ----------------------------------------------------------------------------

  function Only(raised: Raised): Flags
    requires raised != Returned
  {
    match raised
    case OverBudget => NO_FLAGS.(budgetExhausted := true)
    case TimedOut => NO_FLAGS.(budgetExhausted := true)
    case PolicyBlock(_) => NO_FLAGS.(policyBlocked := true)
    case NoDependency => NO_FLAGS.(dependencyMissing := true)
    case AuthExpired => NO_FLAGS.(authRequired := true)
    case AuthRequired => NO_FLAGS.(authRequired := true)
    case NotFound => NO_FLAGS.(notFound := true)
    case _ => NO_FLAGS.(failed := true)
  }

  /** Which failures end the whole run. */
  predicate Stops(raised: Raised) {
    raised.OverBudget? || raised.TimedOut? || raised.PolicyBlock? || raised.AuthExpired? || raised.AuthRequired? || raised.NotFound?
  }

  function Code(raised: Raised): string {
    match raised
    case OverBudget => "budget_exhausted"
    case TimedOut => "budget_exhausted"
    case PolicyBlock(_) => "policy_blocked"
    case NoDependency => "dependency_missing"
    case AuthExpired => "auth_expired"
    case AuthRequired => "auth_required"
    case NotFound => "not_found"
    case _ => "adapter_failed"
  }

  function OutcomeFor(raised: Raised): OutcomeStatus {
    match raised
    case PolicyBlock(_) => Blocked
    case NoDependency => DependencyMissing
    case Returned => Applied
    case TaskCancelled => NotApplicable
    case _ => FailedOutcome
  }

  /** The exception handlers of `_execute_node`. */
  function Conclude(node: PlanNode, before: Context, t: Tried): NodeRun {
    if t.raised == Unexpected then NodeRun(t.after, t.calls, Raises(NO_FLAGS), t.records)
    else if t.raised == TaskCancelled then
      NodeRun(EnsureOutcome(MarkRunning(t.after, CancelledAttempt, "execution_cancelled"), node, |before.outcomes|, NotApplicable),
              t.calls, Cancelled, t.records)
    else if t.raised == Returned then
      NodeRun(EnsureOutcome(t.after, node, |before.outcomes|, Applied), t.calls, Finished(COMPLETED), t.records)
    else
      var marked := if t.raised == TimedOut then EnsureDeadlineAttempt(t.after, node, |before.attempts|)
                    else MarkRunning(t.after, FailedAttempt, Code(t.raised));
      var decided := if t.raised.PolicyBlock? then marked.(decisions := marked.decisions + t.raised.reasons) else marked;
      NodeRun(EnsureOutcome(Diagnose(decided, Code(t.raised)), node, |before.outcomes|, OutcomeFor(t.raised)), t.calls,
              Finished(NodeExecution(false, Only(t.raised), Stops(t.raised))), t.records + Recorded(before, t))
  }

  function Recorded(before: Context, t: Tried): nat {
    if t.raised == TimedOut && Unrecorded(t.after, |before.attempts|) then 1 else 0
  }

  function RunNode(env: Env, tick: nat, node: PlanNode, ctx: Context): NodeRun {
    if node.adapter !in env.registered then
      var diagnosed := Diagnose(ctx, "adapter_missing");
      NodeRun(diagnosed.(outcomes := diagnosed.outcomes + [Outcome(node.capability, DependencyMissing, node.adapter)]), [],
              Finished(NodeExecution(false, NO_FLAGS.(dependencyMissing := true), false)), 0)
    else if env.log(tick) == LostBefore then NodeRun(ctx, [], Raises(NO_FLAGS), 0)
    else
      var run := Conclude(node, ctx, Try(env, tick, node, ctx));
      if env.log(tick) == LostAfter then run.(ended := Raises(run.ended.Flags())) else run
  }

  /** The part of `_execute_node` that its handlers guard. */
  function Try(env: Env, tick: nat, node: PlanNode, ctx: Context): Tried {
    if node.requiresApproval && node.capability !in env.approved then Tried(ctx, [], PolicyBlock([node.capability]), 0)
    else if env.deadlineLeft(tick) <= 0.0 then Tried(EnsureDeadlineAttempt(ctx, node, |ctx.attempts|), [], OverBudget, 1)
    else Attempts(env, tick, node, ctx, 0)
  }

  /** A result either completes the node or says what went wrong; stopping is a failure. */
  predicate WellShaped(e: NodeExecution) {
    (e.completed <==> !e.flags.Any()) && (e.stop ==> e.flags.Any())
  }

  predicate CallsOf(calls: seq<Call>, node: PlanNode) {
    forall i :: 0 <= i < |calls| ==> calls[i].id == node.id && calls[i].adapter == node.adapter
  }

  predicate CallReturned(calls: seq<Call>, id: NodeId) {
    exists i :: 0 <= i < |calls| && calls[i].id == id && calls[i].returned
  }

  /**
   The shape of every node execution: its calls are its own; a result completes the node exactly when its
   adapter returned normally, and otherwise raises a flag; and an unapproved, unregistered or expired
   node calls nothing, however it ends.
   */
  lemma NodeShape(env: Env, tick: nat, node: PlanNode, ctx: Context)
    ensures var run := RunNode(env, tick, node, ctx);
            && CallsOf(run.calls, node)
            && (run.ended.Finished? ==>
                  WellShaped(run.ended.exec) && (run.ended.exec.completed <==> CallReturned(run.calls, node.id)))
            && (run.calls != [] ==>
                  && node.adapter in env.registered && env.deadlineLeft(tick) > 0.0
                  && (node.requiresApproval ==> node.capability in env.approved))
  {
    TryShape(env, tick, node, ctx);
    ConcludeShape(node, ctx, Try(env, tick, node, ctx));
  }

  lemma TryShape(env: Env, tick: nat, node: PlanNode, ctx: Context)
    ensures var t := Try(env, tick, node, ctx);
            && CallsOf(t.calls, node)
            && (t.raised == Returned <==> CallReturned(t.calls, node.id))
            && (t.calls != [] ==> env.deadlineLeft(tick) > 0.0 && (node.requiresApproval ==> node.capability in env.approved))
  {
    AttemptsShape(env, tick, node, ctx, 0);
    var t := Attempts(env, tick, node, ctx, 0);
    if t.raised == Returned {
      assert t.calls[|t.calls| - 1].returned;
    }
  }

  lemma ConcludeShape(node: PlanNode, before: Context, t: Tried)
    ensures var run := Conclude(node, before, t);
            && run.calls == t.calls
            && (run.ended.Finished? ==> WellShaped(run.ended.exec) && (run.ended.exec.completed <==> t.raised == Returned))
  {
  }

  /** Nothing is left running, a passed deadline leaves an attempt that ended, and only the last attempt is touched. */
  ghost predicate AttemptsClosed(t: Tried, attempts: seq<Attempt>) {
    && (attempts != [] ==> attempts[|attempts| - 1].status != InProgress)
    && (t.raised == TimedOut ==> attempts != [] && attempts[|attempts| - 1].status !in {CancelledAttempt, Planned, InProgress})
    && |attempts| >= |t.after.attempts|
    && (forall i :: 0 <= i < |t.after.attempts| - 1 ==> attempts[i] == t.after.attempts[i])
  }

  lemma HandledCloses(node: PlanNode, before: Context, t: Tried)
    requires t.raised != Returned && t.raised != Unexpected
    ensures AttemptsClosed(t, Handled(node, before, t).attempts)
  {
  }

  /** What the handlers leave as the adapter left it, but for the reasons of a blocked policy. */
  ghost predicate RestKept(t: Tried, after: Context) {
    after.decisions == t.after.decisions + (if t.raised.PolicyBlock? then t.raised.reasons else []) && WorkKept(t, after)
  }

  ghost predicate WorkKept(t: Tried, after: Context) {
    && after.resources == t.after.resources && after.artifacts == t.after.artifacts
    && after.accepted == t.after.accepted && after.budget == t.after.budget
  }

  lemma HandledKeepsWork(node: PlanNode, before: Context, t: Tried)
    ensures WorkKept(t, Handled(node, before, t))
  {
  }

  lemma HandlersKeepWork(node: PlanNode, before: Context, t: Tried)
    ensures WorkKept(t, Conclude(node, before, t).after)
  {
    HandledKeepsWork(node, before, t);
    ConcludeAddsWords(node, before, t);
  }

  /** Beside handling the attempts the handlers only add decisions, diagnostics and outcomes. */
  lemma ConcludeAddsWords(node: PlanNode, before: Context, t: Tried)
    ensures var after, handled := Conclude(node, before, t).after, Handled(node, before, t);
            after == handled.(decisions := after.decisions, diagnostics := after.diagnostics, outcomes := after.outcomes)
  {
  }

  lemma HandlersDecide(node: PlanNode, before: Context, t: Tried)
    requires t.raised != Returned && t.raised != Unexpected
    ensures Conclude(node, before, t).after.decisions
            == t.after.decisions + (if t.raised.PolicyBlock? then t.raised.reasons else [])
  {
  }

  /** What the handlers of anything but a return leave behind. */
  lemma HandlersClose(node: PlanNode, before: Context, t: Tried)
    requires t.raised != Returned && t.raised != Unexpected
    ensures var after := Conclude(node, before, t).after; AttemptsClosed(t, after.attempts) && RestKept(t, after)
  {
    ConcludeHandles(node, before, t);
    HandledCloses(node, before, t);
    assert AttemptsClosed(t, Conclude(node, before, t).after.attempts);
    HandlersKeepWork(node, before, t);
    HandlersDecide(node, before, t);
  }

  /** Why a node that ended with a result was not called. */
  lemma WhyNotCalled(env: Env, tick: nat, node: PlanNode, ctx: Context)
    requires RunNode(env, tick, node, ctx).ended.Finished? && RunNode(env, tick, node, ctx).calls == []
    ensures || node.adapter !in env.registered
            || (node.requiresApproval && node.capability !in env.approved)
            || env.deadlineLeft(tick) <= 0.0
            || |ctx.attempts| >= ctx.budget.attempts
  {
  }

  /** No adapter lets an unexpected exception out, no task is cancelled from outside, and the ledger keeps up. */
  ghost predicate Calm(env: Env) {
    && (forall tick: nat, r: nat, node: PlanNode, ctx: Context ::
          var raised := env.adapter(tick, r, node, ctx).raised; raised != Unexpected && raised != TaskCancelled)
    && (forall tick: nat, r: nat :: env.pause(tick, r) != CancelledAsleep)
    && (forall tick: nat :: env.log(tick) == Kept)
  }

  lemma {:induction false} AttemptsCalm(env: Env, tick: nat, node: PlanNode, ctx: Context, r: nat)
    requires Calm(env) && r <= node.retries
    ensures var raised := Attempts(env, tick, node, ctx, r).raised; raised != Unexpected && raised != TaskCancelled
    decreases node.retries - r
  {
    if |ctx.attempts| < ctx.budget.attempts {
      var reply := env.adapter(tick, r, node, ctx);
      if reply.raised == AdapterError(true) && r < node.retries && env.pause(tick, r) == Slept {
        AttemptsCalm(env, tick, node, reply.after, r + 1);
      }
    }
  }

  /** In a calm environment every node ends with a result. */
  lemma NodeReturns(env: Env, tick: nat, node: PlanNode, ctx: Context)
    requires Calm(env)
    ensures RunNode(env, tick, node, ctx).ended.Finished?
  {
    AttemptsCalm(env, tick, node, ctx, 0);
  }

  ghost predicate KeepsOutcomes(env: Env) {
    forall tick: nat, r: nat, node: PlanNode, ctx: Context ::
      ctx.outcomes <= env.adapter(tick, r, node, ctx).after.outcomes
  }

  lemma {:induction false} AttemptsKeepOutcomes(env: Env, tick: nat, node: PlanNode, ctx: Context, r: nat)
    requires KeepsOutcomes(env) && r <= node.retries
    ensures ctx.outcomes <= Attempts(env, tick, node, ctx, r).after.outcomes
    decreases node.retries - r
  {
    if |ctx.attempts| < ctx.budget.attempts {
      var reply := env.adapter(tick, r, node, ctx);
      if reply.raised == AdapterError(true) && r < node.retries && env.pause(tick, r) == Slept {
        AttemptsKeepOutcomes(env, tick, node, reply.after, r + 1);
      }
    }
  }

  /** Every node that ran to a result leaves an outcome for its own capability behind. */
  lemma NodeRecordsOutcome(env: Env, tick: nat, node: PlanNode, ctx: Context)
    requires KeepsOutcomes(env) && RunNode(env, tick, node, ctx).ended.Finished?
    ensures var after := RunNode(env, tick, node, ctx).after;
            ctx.outcomes <= after.outcomes && HasOutcome(after.outcomes, |ctx.outcomes|, node.capability)
  {
    if node.adapter !in env.registered {
      var after := RunNode(env, tick, node, ctx).after;
      assert after.outcomes[|ctx.outcomes|].capability == node.capability;
    } else {
      AttemptsKeepOutcomes(env, tick, node, ctx, 0);
      ConcludeRecords(node, ctx, Try(env, tick, node, ctx));
    }
  }

  lemma ConcludeRecords(node: PlanNode, before: Context, t: Tried)
    requires before.outcomes <= t.after.outcomes && Conclude(node, before, t).ended.Finished?
    ensures var after := Conclude(node, before, t).after;
            before.outcomes <= after.outcomes && HasOutcome(after.outcomes, |before.outcomes|, node.capability)
  {
    var after := Conclude(node, before, t).after;
    assert after.outcomes[|after.outcomes| - 1].capability == node.capability
           || HasOutcome(after.outcomes, |before.outcomes|, node.capability);
  }

  // ---- Budget ------------------------------------------------------------------------------

  /** Adapters account for what they use: within the fields, and within the attempts they may make. */
  ghost predicate Honest(env: Env) {
    forall tick: nat, r: nat, node: PlanNode, ctx: Context ::
      var after := env.adapter(tick, r, node, ctx).after;
      Spends(ctx, after) && (|ctx.attempts| < ctx.budget.attempts ==> |after.attempts| <= ctx.budget.attempts)
  }

  lemma {:induction false} AttemptsSpend(env: Env, tick: nat, node: PlanNode, ctx: Context, r: nat)
    requires Honest(env) && r <= node.retries
    ensures SpendsUpTo(ctx, Attempts(env, tick, node, ctx, r).after, 0) && Attempts(env, tick, node, ctx, r).records == 0
    decreases node.retries - r
  {
    if |ctx.attempts| >= ctx.budget.attempts {
      SpendsNothing(ctx, ctx);
    } else {
      var reply := env.adapter(tick, r, node, ctx);
      assert Spends(ctx, reply.after);
      if reply.raised == AdapterError(true) && r < node.retries && env.pause(tick, r) == Slept {
        AttemptsSpend(env, tick, node, reply.after, r + 1);
        SpendsTransitive(ctx, reply.after, Attempts(env, tick, node, reply.after, r + 1).after);
      }
    }
  }

  lemma MarkSpends(ctx: Context, status: AttemptStatus, code: string)
    ensures SpendsUpTo(ctx, MarkRunning(ctx, status, code), 0)
  {
    RelabelSpends(ctx, MarkRunning(ctx, status, code), |ctx.attempts|);
  }

  lemma DeadlineSpends(ctx: Context, node: PlanNode, attemptCount: nat)
    ensures SpendsUpTo(ctx, EnsureDeadlineAttempt(ctx, node, attemptCount), if Unrecorded(ctx, attemptCount) then 1 else 0)
  {
    RelabelSpends(ctx, EnsureDeadlineAttempt(ctx, node, attemptCount), |ctx.attempts|);
  }

  /** What the handlers of a node leave of the attempts. */
  function Handled(node: PlanNode, before: Context, t: Tried): Context {
    if t.raised == Unexpected || t.raised == Returned then t.after
    else if t.raised == TaskCancelled then MarkRunning(t.after, CancelledAttempt, "execution_cancelled")
    else if t.raised == TimedOut then EnsureDeadlineAttempt(t.after, node, |before.attempts|)
    else MarkRunning(t.after, FailedAttempt, Code(t.raised))
  }

  lemma ConcludeHandles(node: PlanNode, before: Context, t: Tried)
    ensures Conclude(node, before, t).after.attempts == Handled(node, before, t).attempts
    ensures Conclude(node, before, t).after.budget == Handled(node, before, t).budget == t.after.budget
  {
  }

  /** Handling a result adds no consumption, and an attempt only to record the deadline. */
  lemma ConcludeSpends(node: PlanNode, before: Context, t: Tried)
    requires SpendsUpTo(before, t.after, t.records)
    ensures SpendsUpTo(before, Conclude(node, before, t).after, Conclude(node, before, t).records)
  {
    ConcludeHandles(node, before, t);
    var handled := Handled(node, before, t);
    HandledSpends(node, before, t);
    SpendsNext(before, t.after, handled, t.records, Recorded(before, t));
    SpendsNothing(handled, Conclude(node, before, t).after);
    SpendsNext(before, handled, Conclude(node, before, t).after, t.records + Recorded(before, t), 0);
  }

  lemma HandledSpends(node: PlanNode, before: Context, t: Tried)
    ensures SpendsUpTo(t.after, Handled(node, before, t), Recorded(before, t))
  {
    if t.raised == TimedOut {
      DeadlineSpends(t.after, node, |before.attempts|);
    } else if t.raised == TaskCancelled {
      MarkSpends(t.after, CancelledAttempt, "execution_cancelled");
    } else if t.raised == Unexpected || t.raised == Returned {
      SpendsNothing(t.after, Handled(node, before, t));
    } else {
      MarkSpends(t.after, FailedAttempt, Code(t.raised));
    }
  }

  lemma TrySpends(env: Env, tick: nat, node: PlanNode, ctx: Context)
    requires Honest(env)
    ensures var t := Try(env, tick, node, ctx); SpendsUpTo(ctx, t.after, t.records)
  {
    if node.requiresApproval && node.capability !in env.approved {
      SpendsNothing(ctx, ctx);
    } else if env.deadlineLeft(tick) <= 0.0 {
      DeadlineSpends(ctx, node, |ctx.attempts|);
    } else {
      AttemptsSpend(env, tick, node, ctx, 0);
    }
  }

  /**
   However it ends, a node spends within every field of the budget, and makes no more attempts than it may
   but for the record of a passed deadline.
   */
  lemma NodeSpends(env: Env, tick: nat, node: PlanNode, ctx: Context)
    requires Honest(env)
    ensures var run := RunNode(env, tick, node, ctx); SpendsUpTo(ctx, run.after, run.records)
  {
    if node.adapter !in env.registered || env.log(tick) == LostBefore {
      SpendsNothing(ctx, RunNode(env, tick, node, ctx).after);
    } else {
      TrySpends(env, tick, node, ctx);
      ConcludeSpends(node, ctx, Try(env, tick, node, ctx));
    }
  }

  /** A node leaves at most one such record, consumes nothing with it, and is flagged as out of budget. */
  lemma RecordsAreDeadlines(env: Env, tick: nat, node: PlanNode, ctx: Context)
    ensures var run := RunNode(env, tick, node, ctx);
            && run.records <= 1
            && (run.records == 1 ==>
                  && run.ended.Flags().budgetExhausted && run.after.attempts != []
                  && run.after.attempts[|run.after.attempts| - 1].consumed == map[]
                  && run.after.attempts[|run.after.attempts| - 1].spent == map[])
  {
    AttemptsRecordNothing(env, tick, node, ctx, 0);
    if node.adapter in env.registered && env.log(tick) != LostBefore {
      ConcludeHandles(node, ctx, Try(env, tick, node, ctx));
    }
  }

  lemma {:induction false} AttemptsRecordNothing(env: Env, tick: nat, node: PlanNode, ctx: Context, r: nat)
    requires r <= node.retries
    ensures Attempts(env, tick, node, ctx, r).records == 0
    decreases node.retries - r
  {
    if |ctx.attempts| < ctx.budget.attempts {
      var reply := env.adapter(tick, r, node, ctx);
      if reply.raised == AdapterError(true) && r < node.retries && env.pause(tick, r) == Slept {
        AttemptsRecordNothing(env, tick, node, reply.after, r + 1);
      }
    }
  }

  // ---- The run's status --------------------------------------------------------------------

  datatype Status = Success | Partial | BlockedByPolicy | NeedsAuth | Missing | OutOfBudget | LowQuality | NoDependencies | Failure

  function StatusOf(ctx: Context, flags: Flags): Status {
    if ctx.accepted then if flags.Any() then Partial else Success
    else if flags.policyBlocked then BlockedByPolicy
    else if flags.authRequired then NeedsAuth
    else if flags.notFound then Missing
    else if flags.budgetExhausted then OutOfBudget
    else if ctx.artifacts != [] then if flags.failed || flags.dependencyMissing then Partial else LowQuality
    else if flags.dependencyMissing then NoDependencies
    else Failure
  }
}
