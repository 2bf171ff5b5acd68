/** The planner and the executor together. */
module Runtime {
  import opened Common
  import opened Plan
  import opened PlanText
  import opened Context
  import opened NodeRun
  import opened Batch
  import Planner
  import PlanRules
  import Executor
  import Fates
  import Flow
  import Verdict
  import Engine

  /** Call `i` comes after a call of the node that returned. */
  ghost predicate After(calls: seq<Call>, i: nat, id: NodeId)
    requires i < |calls|
  {
    CallReturned(calls[..i], id)
  }

  /** Calls of a plan belong to its nodes, so what the plan says of a node holds of its calls. */
  lemma CallHasNode(plan: seq<PlanNode>, approved: set<string>, calls: seq<Call>, i: nat) returns (n: PlanNode)
    requires Executor.ApprovedCalls(plan, approved, calls) && i < |calls|
    ensures n in plan && n.id == calls[i].id && n.adapter == calls[i].adapter
    ensures n.requiresApproval ==> n.capability in approved
  {
    assert Executor.Licensed(plan, approved, calls[i]);
    n :| n in plan && n.id == calls[i].id && n.adapter == calls[i].adapter && (n.requiresApproval ==> n.capability in approved);
  }

  /** Policy dominance: no adapter outside the core before the policy call returned. */
  ghost predicate PolicyDominates(calls: seq<Call>) {
    forall i :: 0 <= i < |calls| && calls[i].adapter != "core" ==> After(calls, i, Policy)
  }

  /** Beside the core and the session itself nothing is called before the session's call returned. */
  ghost predicate SessionDominates(calls: seq<Call>, gate: NodeId) {
    forall i :: 0 <= i < |calls| && !calls[i].id.Normalize? && !calls[i].id.Policy? && !calls[i].id.AuthSession? ==>
      After(calls, i, gate)
  }

  lemma PolicyFirst(plan: seq<PlanNode>, approved: set<string>, calls: seq<Call>)
    requires PolicyGuarded(plan) && Executor.PlainFirst(plan, calls) && Executor.ApprovedCalls(plan, approved, calls)
    ensures PolicyDominates(calls)
  {
    var p :| p in plan && p.id == Policy;
    assert Executor.Follows(plan, p, calls);
    forall i | 0 <= i < |calls| && calls[i].adapter != "core" ensures After(calls, i, Policy) {
      var n := CallHasNode(plan, approved, calls, i);
      assert DependsOn(plan, n.id, Policy);
    }
  }

  lemma SessionFirst(plan: seq<PlanNode>, approved: set<string>, calls: seq<Call>, gate: NodeId)
    requires Planner.SessionGuarded(plan, gate)
    requires Executor.PlainFirst(plan, calls) && Executor.ApprovedCalls(plan, approved, calls)
    ensures SessionDominates(calls, gate)
  {
    var g :| g in plan && g.id == gate && g.group.None? && g.fallbackFor.None?;
    assert Executor.Plain(g) && Executor.Follows(plan, g, calls);
    forall i | 0 <= i < |calls| && !calls[i].id.Normalize? && !calls[i].id.Policy? && !calls[i].id.AuthSession?
      ensures After(calls, i, gate)
    {
      var n := CallHasNode(plan, approved, calls, i);
      assert DependsOn(plan, n.id, gate);
    }
  }

  /** A call to the form node was approved as such. */
  lemma SubmissionIsApproved(plan: seq<PlanNode>, approved: set<string>, calls: seq<Call>, i: nat)
    requires Planner.ApprovalMarked(plan) && Executor.ApprovedCalls(plan, approved, calls)
    requires i < |calls| && calls[i].id == AuthForm
    ensures "form_submit" in approved
  {
    var n := CallHasNode(plan, approved, calls, i);
  }

  /** A call to the HTTP node that posts was approved as a post. */
  lemma PostIsApproved(plan: seq<PlanNode>, approved: set<string>, calls: seq<Call>, i: nat, outputs: seq<string>)
    requires Planner.ApprovalMarked(plan) && Planner.HttpAs(plan, outputs) && Executor.ApprovedCalls(plan, approved, calls)
    requires i < |calls| && calls[i].id == Http && Planner.HttpCapability(outputs) == "http_post"
    ensures "http_post" in approved
  {
    var n := CallHasNode(plan, approved, calls, i);
  }

  /** Nothing is submitted or posted without approval. */
  ghost predicate SubmitsApproved(calls: seq<Call>, approved: set<string>, outputs: seq<string>) {
    forall i :: 0 <= i < |calls| ==>
      && (calls[i].id == AuthForm ==> "form_submit" in approved)
      && (calls[i].id == Http && "http_post" in outputs && "http_head" !in outputs ==> "http_post" in approved)
  }

  lemma SubmissionsAreApproved(plan: seq<PlanNode>, approved: set<string>, calls: seq<Call>, outputs: seq<string>)
    requires Planner.ApprovalMarked(plan) && Planner.HttpAs(plan, outputs) && Executor.ApprovedCalls(plan, approved, calls)
    ensures SubmitsApproved(calls, approved, outputs)
  {
    forall i | 0 <= i < |calls|
      ensures calls[i].id == AuthForm ==> "form_submit" in approved
      ensures calls[i].id == Http && "http_post" in outputs && "http_head" !in outputs ==> "http_post" in approved
    {
      PlanRules.PostTells(outputs);
      if calls[i].id == AuthForm {
        SubmissionIsApproved(plan, approved, calls, i);
      } else if calls[i].id == Http && Planner.HttpCapability(outputs) == "http_post" {
        PostIsApproved(plan, approved, calls, i, outputs);
      }
    }
  }

  /** What is claimed of the calls of a planned run. */
  ghost predicate Guarded(registry: Planner.Registry, request: Planner.Request, approved: set<string>, calls: seq<Call>) {
    var outputs := Planner.Canonical(registry, request.outputs);
    && PolicyDominates(calls)
    && (forall s :: s in SESSIONS && s in outputs ==> SessionDominates(calls, AuthSession(s)))
    && SubmitsApproved(calls, approved, outputs)
  }

  /** What is used of a plan. */
  ghost predicate Planned(registry: Planner.Registry, request: Planner.Request, plan: seq<PlanNode>) {
    var outputs := Planner.Canonical(registry, request.outputs);
    && Executable(plan) && PolicyGuarded(plan) && Planner.SessionGuarded(plan, Planner.Gate(outputs))
    && Planner.HttpAs(plan, outputs) && Planner.ApprovalMarked(plan) && |Planner.Pick(SESSIONS, outputs)| <= 1
    && (forall n :: n in plan ==> Planner.Admits(registry, request, n.capability))
  }

  lemma RunIsGuarded(registry: Planner.Registry, request: Planner.Request, plan: seq<PlanNode>, approved: set<string>, calls: seq<Call>)
    requires Planned(registry, request, plan)
    requires Executor.PlainFirst(plan, calls) && Executor.ApprovedCalls(plan, approved, calls)
    ensures Guarded(registry, request, approved, calls)
  {
    var outputs := Planner.Canonical(registry, request.outputs);
    PolicyFirst(plan, approved, calls);
    SessionFirst(plan, approved, calls, Planner.Gate(outputs));
    PlanRules.GateTells(outputs);
    SubmissionsAreApproved(plan, approved, calls, outputs);
  }

  /** Why a request gets no plan. */
  ghost predicate Refused(registry: Planner.Registry, request: Planner.Request, error: Planner.PlanError) {
    var outputs := Planner.Canonical(registry, request.outputs);
    Planner.Reason(registry, request, outputs, Planner.Classify(request.suffix, request.namedApi, outputs),
                   Planner.Classify(request.suffix, request.namedApi, []), error)
  }

  method PlanFor(registry: Planner.Registry, request: Planner.Request) returns (r: Result<seq<PlanNode>, Planner.PlanError>)
    requires request.namedApi.Some? ==> request.namedApi.value in Planner.API_CAPABILITIES
    ensures r.Err? ==> Refused(registry, request, r.error)
    ensures r.Ok? ==> Planned(registry, request, r.value)
  {
    r := Planner.BuildPlan(registry, request);
  }

  /** What is claimed of the run of a plan, and of the answer if it returns. */
  ghost predicate Performed(env: Env, cuts: (nat, Context) -> Cut, plan: seq<PlanNode>, start: Context, r: Executor.Report) {
    && Fates.Told(env, cuts, plan, r)
    && (r.status.Some? ==> Executor.Settled(plan, r) && Fates.Over(plan, r) && Verdict.RunAnswers(env, cuts, plan, r)
                           && Flow.Threaded(plan, start, r))
    && (Disciplined(env, cuts) ==> Executor.Accounted(start, r))
  }

  /**
   Whatever is requested, registered, allowed or denied, and however the adapters behave and the
   branches interleave, a planned run, whether it returns or raises, calls
   - no adapter outside the core unless the policy node's own call has returned before,
   - nothing behind a requested session unless the session's own call has returned before,
   - the form submission and a post only with approval,
   and only capabilities that the request's lists admit; each node of its plan is accounted for, its status is
   that of what its nodes met, and with adapters that account for what they use it stays within its budget
   but for the deadline records.  It returns whenever no exception is unexpected, nobody cancels it and the
   ledger keeps up.  A request without a plan is refused for a reason that holds of it.
   */
  method PlanAndExecute(registry: Planner.Registry, request: Planner.Request, env: Env,
                        waits: nat -> Wait, cuts: (nat, Context) -> Cut, start: Context)
    returns (r: Result<Executor.Report, Planner.PlanError>, ghost plan: seq<PlanNode>)
    requires request.namedApi.Some? ==> request.namedApi.value in Planner.API_CAPABILITIES
    requires forall t: nat :: Completes(waits(t))
    ensures r.Err? ==> Refused(registry, request, r.error)
    ensures r.Ok? ==> Guarded(registry, request, env.approved, r.value.calls)
    ensures r.Ok? ==> Planned(registry, request, plan) && Performed(env, cuts, plan, start, r.value)
    ensures r.Ok? && (forall t: nat :: Executor.AllCalm(env, waits(t), cuts)) ==> r.value.status.Some?
    ensures r.Ok? && r.value.status == Some(Success) ==> CallReturned(r.value.calls, Policy)
  {
    plan := [];
    var built := PlanFor(registry, request);
    if built.Err? {
      return Err(built.error), [];
    }
    plan := built.value;
    var report := Engine.Execute(env, waits, cuts, built.value, start);
    RunIsGuarded(registry, request, plan, env.approved, report.calls);
    PolicyIsPlain(plan);
    return Ok(report), plan;
  }

  lemma PolicyIsPlain(plan: seq<PlanNode>)
    requires PolicyGuarded(plan)
    ensures exists p :: p in plan && p.id == Policy && Executor.Plain(p)
  {
    var p :| p in plan && p.id == Policy;
    assert Executor.Plain(p);
  }
}
