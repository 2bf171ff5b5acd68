/**
 Parallel batches of `src/fetech/executor.py`: which nodes form one, how its branches end in every
 completion and cancellation order, and what they spend together.
 */
module Batch {
  import opened Common
  import opened Plan
  import opened Context
  import opened NodeRun

  // ---- Choosing a batch --------------------------------------------------------------------

  /** Whether a node may join the batch that `first` opens. */
  predicate Joins(first: PlanNode, node: PlanNode, completed: set<NodeId>, ctx: Context) {
    && node.group == first.group
    && !node.requiresApproval
    && (forall d :: d in node.dependencies ==> d in completed)
    && !(ctx.accepted && node.fallbackFor.Some?)
  }

  /** How many nodes from `i` on may join the batch, with room for that many. */
  function Joining(nodes: seq<PlanNode>, first: PlanNode, i: nat, completed: set<NodeId>, ctx: Context, room: nat): (n: nat)
    requires i <= |nodes|
    ensures i + n <= |nodes| && n <= room
    decreases room
  {
    if room == 0 || i == |nodes| || !Joins(first, nodes[i], completed, ctx) then 0
    else 1 + Joining(nodes, first, i + 1, completed, ctx, room - 1)
  }

  /** The size of the batch that opens at `start`. */
  function BatchSize(nodes: seq<PlanNode>, start: nat, completed: set<NodeId>, ctx: Context): (n: nat)
    requires start < |nodes|
    ensures 1 <= n <= |nodes| - start
    ensures n > 1 ==> n <= ctx.budget.attempts - |ctx.attempts| && nodes[start].group.Some?
  {
    var first := nodes[start];
    var remaining := ctx.budget.attempts - |ctx.attempts|;
    if first.group.None? || first.requiresApproval || remaining <= 1 then 1
    else
      var n := Joining(nodes, first, start, completed, ctx, remaining);
      if n == 0 then 1 else n
  }

  lemma {:induction false} JoiningJoin(nodes: seq<PlanNode>, first: PlanNode, i: nat, completed: set<NodeId>, ctx: Context, room: nat)
    requires i <= |nodes|
    ensures forall k :: i <= k < i + Joining(nodes, first, i, completed, ctx, room) ==> Joins(first, nodes[k], completed, ctx)
    decreases room
  {
    if room > 0 && i < |nodes| && Joins(first, nodes[i], completed, ctx) {
      JoiningJoin(nodes, first, i + 1, completed, ctx, room - 1);
    }
  }

  /** Every node of a batch of more than one joins it. */
  lemma BatchJoins(nodes: seq<PlanNode>, start: nat, completed: set<NodeId>, ctx: Context, i: nat)
    requires start < |nodes| && i < BatchSize(nodes, start, completed, ctx) && BatchSize(nodes, start, completed, ctx) > 1
    ensures Joins(nodes[start], nodes[start + i], completed, ctx)
    ensures var node := nodes[start + i];
            && node.group.Some? && node.group == nodes[start].group && !node.requiresApproval
            && (forall d :: d in node.dependencies ==> d in completed) && !(ctx.accepted && node.fallbackFor.Some?)
  {
    JoiningJoin(nodes, nodes[start], start, completed, ctx, ctx.budget.attempts - |ctx.attempts|);
  }

  /**
   `_parallel_batch`: the longest contiguous run of joining nodes that still leaves every branch an
   attempt, or the first node alone.
   */
  method ParallelBatch(nodes: seq<PlanNode>, start: nat, completed: set<NodeId>, ctx: Context) returns (batch: seq<PlanNode>)
    requires start < |nodes|
    ensures 1 <= |batch| <= |nodes| - start && batch == nodes[start..start + |batch|]
    ensures |batch| == BatchSize(nodes, start, completed, ctx)
    ensures |batch| > 1 ==>
              && nodes[start].group.Some? && |batch| <= ctx.budget.attempts - |ctx.attempts|
              && forall i :: 0 <= i < |batch| ==>
                   && batch[i].group == nodes[start].group && !batch[i].requiresApproval
                   && (forall d :: d in batch[i].dependencies ==> d in completed)
                   && (ctx.accepted ==> batch[i].fallbackFor.None?)
    ensures && nodes[start].group.Some? && !nodes[start].requiresApproval && ctx.budget.attempts - |ctx.attempts| > 1
            && (forall d :: d in nodes[start].dependencies ==> d in completed)
            && (ctx.accepted ==> nodes[start].fallbackFor.None?) ==>
              || |batch| == ctx.budget.attempts - |ctx.attempts|
              || start + |batch| == |nodes|
              || var next := nodes[start + |batch|];
                 || next.group != nodes[start].group || next.requiresApproval
                 || (exists d :: d in next.dependencies && d !in completed)
                 || (ctx.accepted && next.fallbackFor.Some?)
  {
    var first := nodes[start];
    var remaining := ctx.budget.attempts - |ctx.attempts|;
    if first.group.None? || first.requiresApproval || remaining <= 1 {
      return [first];
    }
    batch := [];
    var i := start;
    while i < |nodes|
      invariant start <= i <= |nodes| && batch == nodes[start..i] && |batch| < remaining
      invariant Joining(nodes, first, start, completed, ctx, remaining)
                == |batch| + Joining(nodes, first, i, completed, ctx, remaining - |batch|)
      invariant forall j :: 0 <= j < |batch| ==> Joins(first, batch[j], completed, ctx)
    {
      if !Joins(first, nodes[i], completed, ctx) {
        break;
      }
      assert Joining(nodes, first, i, completed, ctx, remaining - |batch|)
             == 1 + Joining(nodes, first, i + 1, completed, ctx, remaining - |batch| - 1);
      batch := batch + [nodes[i]];
      i := i + 1;
      if |batch| >= remaining {
        break;
      }
    }
    if batch == [] {
      batch := [first];
    }
  }

  // ---- Branches ----------------------------------------------------------------------------

  /**
   What a cancellation does to a branch that has not finished: nothing any more, or it cuts the branch
   off somewhere, or the adapter turns it into another outcome, which the handlers then treat.
   */
  datatype Cut =
    | Survives
    | CutOff(after: Context, returned: seq<bool>)
    | Answers(after: Context, failed: nat, raised: Raised)

  datatype Branch = Branch(ended: Ended, after: Context, calls: seq<Call>, cancelled: bool, records: nat)

  /** One branch: its node, how it ends when left alone, and how it ends when it is cancelled. */
  datatype Task = Task(node: PlanNode, alone: Branch, hit: Branch)

  function CallsLeft(node: PlanNode, returned: seq<bool>): seq<Call> {
    seq(|returned|, i requires 0 <= i < |returned| => Call(node.id, node.adapter, returned[i]))
  }

  /** Some failed attempts, and the last one, which ended as the adapter answered. */
  function Answered(node: PlanNode, failed: nat, raised: Raised): seq<Call> {
    CallsLeft(node, seq(failed, i => false)) + [Call(node.id, node.adapter, raised == Returned)]
  }

  /** A branch whose task is read as it is. */
  function AsIs(run: NodeRun): Branch {
    Branch(run.ended, run.after, run.calls, false, run.records)
  }

  /** How the engine reads a task it cancelled: cancelled tasks count as completed without a flag. */
  function Settle(run: NodeRun): Branch {
    if run.ended.Cancelled? then Branch(Finished(COMPLETED), run.after, run.calls, true, run.records) else AsIs(run)
  }

  function HitBy(node: PlanNode, ctx: Context, run: NodeRun, cut: Cut): Branch {
    match cut
    case Survives => Settle(run)
    case CutOff(after, returned) => Branch(Finished(COMPLETED), after, CallsLeft(node, returned), true, 0)
    case Answers(after, failed, raised) => Settle(Conclude(node, ctx, Tried(after, Answered(node, failed, raised), raised, 0)))
  }

  function MakeTask(env: Env, tick: nat, node: PlanNode, ctx: Context, cut: Cut): Task {
    var run := RunNode(env, tick, node, ctx);
    Task(node, AsIs(run), HitBy(node, ctx, run, cut))
  }

  /**
   What the engine wakes up with in a round: some pending branches have finished -- and it may be
   disturbed while it then awaits those it cancels -- or its own task was cancelled meanwhile.
   */
  datatype Wake = Awake(finished: set<nat>, disturbed: bool) | Interrupted

  type Wait = (nat, set<nat>) -> Wake

  /** Waiting for the first completion returns some of the pending branches. */
  ghost predicate Completes(wait: Wait) {
    forall round: nat, pending: set<nat> {:trigger wait(round, pending)} ::
      pending != {} && wait(round, pending).Awake? ==>
        wait(round, pending).finished != {} && wait(round, pending).finished <= pending
  }

  /** Nobody cancels the run's own task while it waits. */
  ghost predicate Quiet(wait: Wait) {
    forall round: nat, pending: set<nat> {:trigger wait(round, pending)} ::
      wait(round, pending).Awake? && !wait(round, pending).disturbed
  }

  function Indices(n: nat): (r: set<nat>)
    ensures forall i: nat :: i in r <==> i < n
  {
    if n == 0 then {} else Indices(n - 1) + {n - 1}
  }

  lemma Shrinks(pending: set<nat>, finished: set<nat>)
    requires finished <= pending && finished != {}
    ensures |pending - finished| < |pending|
  {
    var i :| i in finished;
    assert pending == (pending - finished) + finished;
  }

  // ---- Who is cancelled --------------------------------------------------------------------

  /** A finished branch that makes the engine cancel the others: it stopped the run, or it won. */
  predicate Decides(node: PlanNode, b: Branch, accepted: bool) {
    && b.ended.Finished?
    && (b.ended.exec.stop || (b.ended.exec.completed && node.stopOnAcceptance && !accepted && b.after.accepted))
  }

  /** A branch whose end also ends the waiting: it decided, or its exception is raised again. */
  predicate Breaks(t: Task, accepted: bool) {
    !t.alone.ended.Finished? || Decides(t.node, t.alone, accepted)
  }

  predicate AnyBreaks(tasks: seq<Task>, accepted: bool, among: set<nat>) {
    exists i :: i in among && i < |tasks| && Breaks(tasks[i], accepted)
  }

  predicate AnyRaises(tasks: seq<Task>, among: set<nat>) {
    exists i :: i in among && i < |tasks| && !tasks[i].alone.ended.Finished?
  }

  /** How the waiting ends: the branches that are cancelled, and whether the engine itself was. */
  datatype Halt = Halt(struck: set<nat>, broken: bool)

  /**
   Cancelled are the branches still pending when the first branch that breaks is collected, or when the
   engine's own task is cancelled.
   */
  ghost function HaltOf(tasks: seq<Task>, accepted: bool, wait: Wait, round: nat, pending: set<nat>): Halt
    requires Completes(wait)
    decreases |pending|
  {
    if pending == {} then Halt({}, false)
    else
      match wait(round, pending)
      case Interrupted => Halt(pending, true)
      case Awake(finished, disturbed) =>
        Shrinks(pending, finished);
        if AnyBreaks(tasks, accepted, finished) then Halt(pending - finished, disturbed && pending != finished)
        else HaltOf(tasks, accepted, wait, round + 1, pending - finished)
  }

  // ---- The same, told round by round -------------------------------------------------------

  /**
   A branch whose end is also the end of the others: it did not end in a result, it stops the run, or it is
   an alternative that completed and had its context accepted where nothing was accepted before.
   */
  predicate EndsOthers(node: PlanNode, b: Branch, accepted: bool) {
    || !b.ended.Finished?
    || b.ended.exec.stop
    || (b.ended.exec.completed && node.stopOnAcceptance && b.after.accepted && !accepted)
  }

  ghost predicate SomeEndsOthers(tasks: seq<Task>, accepted: bool, finished: set<nat>) {
    exists i :: i in finished && i < |tasks| && EndsOthers(tasks[i].node, tasks[i].alone, accepted)
  }

  /** In each of the first rounds some branches finished, none of them ending the others; `pendings` are those still running. */
  ghost predicate Rounds(tasks: seq<Task>, accepted: bool, wait: Wait, pendings: seq<set<nat>>) {
    && pendings != [] && pendings[0] == Indices(|tasks|)
    && (forall k :: 0 <= k < |pendings| - 1 ==> QuietRound(tasks, accepted, wait, k, pendings[k], pendings[k + 1]))
  }

  ghost predicate QuietRound(tasks: seq<Task>, accepted: bool, wait: Wait, round: nat, pending: set<nat>, next: set<nat>) {
    && pending != {} && wait(round, pending).Awake?
    && next == pending - wait(round, pending).finished
    && !SomeEndsOthers(tasks, accepted, wait(round, pending).finished)
  }

  /** The round after these is the last: nobody is left, or the engine itself is cancelled, or a branch ends the others. */
  ghost predicate LastRound(tasks: seq<Task>, accepted: bool, wait: Wait, pendings: seq<set<nat>>, struck: set<nat>, broken: bool)
    requires pendings != []
  {
    var round, pending := |pendings| - 1, pendings[|pendings| - 1];
    if pending == {} then struck == {} && !broken
    else
      match wait(round, pending)
      case Interrupted => struck == pending && broken
      case Awake(finished, disturbed) =>
        && SomeEndsOthers(tasks, accepted, finished)
        && struck == pending - finished && (broken <==> disturbed && struck != {})
  }

  /**
   Who is cancelled: nobody, as long as no finished branch ends the others and the engine is not cancelled;
   then exactly the branches still running, those that finished in the same round excepted.
   */
  ghost predicate StruckRightly(tasks: seq<Task>, accepted: bool, wait: Wait, struck: set<nat>, broken: bool) {
    exists pendings :: Rounds(tasks, accepted, wait, pendings) && LastRound(tasks, accepted, wait, pendings, struck, broken)
  }

  lemma BreaksEndsOthers(tasks: seq<Task>, accepted: bool, finished: set<nat>)
    ensures AnyBreaks(tasks, accepted, finished) <==> SomeEndsOthers(tasks, accepted, finished)
  {
    forall i: nat | i in finished && i < |tasks|
      ensures Breaks(tasks[i], accepted) <==> EndsOthers(tasks[i].node, tasks[i].alone, accepted)
    {
    }
  }

  lemma {:induction false} HaltIsRight(tasks: seq<Task>, accepted: bool, wait: Wait, pendings: seq<set<nat>>)
    requires Completes(wait) && Rounds(tasks, accepted, wait, pendings)
    ensures var halt := HaltOf(tasks, accepted, wait, |pendings| - 1, pendings[|pendings| - 1]);
            StruckRightly(tasks, accepted, wait, halt.struck, halt.broken)
    decreases |pendings[|pendings| - 1]|
  {
    var round, pending := |pendings| - 1, pendings[|pendings| - 1];
    var halt := HaltOf(tasks, accepted, wait, round, pending);
    if pending == {} || wait(round, pending).Interrupted? {
      assert LastRound(tasks, accepted, wait, pendings, halt.struck, halt.broken);
    } else {
      var finished := wait(round, pending).finished;
      Shrinks(pending, finished);
      BreaksEndsOthers(tasks, accepted, finished);
      if AnyBreaks(tasks, accepted, finished) {
        assert LastRound(tasks, accepted, wait, pendings, halt.struck, halt.broken);
      } else {
        OneMoreRound(tasks, accepted, wait, pendings);
        HaltIsRight(tasks, accepted, wait, pendings + [pending - finished]);
      }
    }
  }

  lemma OneMoreRound(tasks: seq<Task>, accepted: bool, wait: Wait, pendings: seq<set<nat>>)
    requires Rounds(tasks, accepted, wait, pendings)
    requires var round, pending := |pendings| - 1, pendings[|pendings| - 1];
             && pending != {} && wait(round, pending).Awake?
             && !SomeEndsOthers(tasks, accepted, wait(round, pending).finished)
    ensures var round, pending := |pendings| - 1, pendings[|pendings| - 1];
            Rounds(tasks, accepted, wait, pendings + [pending - wait(round, pending).finished])
  {
    var last := |pendings| - 1;
    var more := pendings + [pendings[last] - wait(last, pendings[last]).finished];
    forall k | 0 <= k < |more| - 1 ensures QuietRound(tasks, accepted, wait, k, more[k], more[k + 1]) {
      if k < last {
        assert QuietRound(tasks, accepted, wait, k, pendings[k], pendings[k + 1]);
      }
    }
  }

  /** How a batch ends, in the fields of its branches. */
  ghost predicate EndedRightly(tasks: seq<Task>, accepted: bool, wait: Wait, end: BatchEnd) {
    && |end.branches| == |tasks|
    && (forall i :: 0 <= i < |tasks| ==> end.branches[i] == if i in end.struck then tasks[i].hit else tasks[i].alone)
    && exists broken ::
         && StruckRightly(tasks, accepted, wait, end.struck, broken)
         && (end.Threw? <==> broken || exists i :: 0 <= i < |tasks| && !end.branches[i].ended.Finished?)
  }

  lemma EndIsRight(tasks: seq<Task>, accepted: bool, wait: Wait)
    requires Completes(wait)
    ensures EndedRightly(tasks, accepted, wait, EndOf(tasks, accepted, wait))
  {
    var halt := HaltOf(tasks, accepted, wait, 0, Indices(|tasks|));
    HaltIsRight(tasks, accepted, wait, [Indices(|tasks|)]);
    assert StruckRightly(tasks, accepted, wait, halt.struck, halt.broken);
  }

  /** A branch is cancelled only on account of another one that is not, or of the engine's own cancellation. */
  lemma {:induction false} StruckHasCause(tasks: seq<Task>, accepted: bool, wait: Wait, round: nat, pending: set<nat>)
    requires Completes(wait)
    ensures var halt := HaltOf(tasks, accepted, wait, round, pending);
            && halt.struck <= pending
            && (halt.struck != {} ==>
                  halt.broken || SomeEndsOthers(tasks, accepted, pending - halt.struck))
            && (Quiet(wait) ==> !halt.broken)
    decreases |pending|
  {
    if pending != {} && wait(round, pending).Awake? {
      var finished := wait(round, pending).finished;
      Shrinks(pending, finished);
      BreaksEndsOthers(tasks, accepted, finished);
      if AnyBreaks(tasks, accepted, finished) {
        var i :| i in finished && i < |tasks| && EndsOthers(tasks[i].node, tasks[i].alone, accepted);
        assert i in pending - (pending - finished);
      } else {
        StruckHasCause(tasks, accepted, wait, round + 1, pending - finished);
      }
    }
  }

  /** How the branches end when those in `struck` are cancelled and the others are left alone. */
  function Ends(tasks: seq<Task>, struck: set<nat>): seq<Branch> {
    seq(|tasks|, i requires 0 <= i < |tasks| => if i in struck then tasks[i].hit else tasks[i].alone)
  }

  ghost predicate AllFinished(branches: seq<Branch>) {
    forall i :: 0 <= i < |branches| ==> branches[i].ended.Finished?
  }

  /** The end of a batch: either way every branch has come to its own end, those in `struck` cancelled. */
  datatype BatchEnd = Done(branches: seq<Branch>, struck: set<nat>) | Threw(branches: seq<Branch>, struck: set<nat>)

  ghost function EndWith(tasks: seq<Task>, halt: Halt): (end: BatchEnd)
    ensures |end.branches| == |tasks| && (end.Done? ==> AllFinished(end.branches))
  {
    var ends := Ends(tasks, halt.struck);
    if halt.broken || !AllFinished(ends) then Threw(ends, halt.struck) else Done(ends, halt.struck)
  }

  /** What becomes of a batch. */
  ghost function EndOf(tasks: seq<Task>, accepted: bool, wait: Wait): BatchEnd
    requires Completes(wait)
  {
    EndWith(tasks, HaltOf(tasks, accepted, wait, 0, Indices(|tasks|)))
  }

  /** The results so far are those of branches that were left alone. */
  ghost predicate Collected(tasks: seq<Task>, results: map<nat, Branch>) {
    forall i :: i in results ==> i < |tasks| && results[i] == tasks[i].alone && results[i].ended.Finished?
  }

  /** Collect the results of the branches that finished in one round, up to the first exception. */
  method Collect(tasks: seq<Task>, accepted: bool, before: map<nat, Branch>, finished: set<nat>)
    returns (results: map<nat, Branch>, cancel: bool, raised: bool)
    requires Collected(tasks, before) && finished <= Indices(|tasks|)
    ensures raised <==> AnyRaises(tasks, finished)
    ensures !raised ==> Collected(tasks, results) && results.Keys == before.Keys + finished
    ensures !raised ==> (cancel <==> AnyBreaks(tasks, accepted, finished))
  {
    results, cancel, raised := before, false, false;
    var todo := finished;
    while todo != {}
      invariant todo <= finished && Collected(tasks, results) && results.Keys == before.Keys + (finished - todo)
      invariant cancel <==> AnyBreaks(tasks, accepted, finished - todo)
      invariant !AnyRaises(tasks, finished - todo)
      decreases todo
    {
      var i :| i in todo;
      var b := tasks[i].alone;
      if !b.ended.Finished? {
        assert i in finished;
        return before, false, true;
      }
      AnyOneMore(tasks, accepted, finished - todo, i);
      results := results[i := b];
      cancel := cancel || Decides(tasks[i].node, b, accepted);
      todo := todo - {i};
      assert finished - todo == finished - (todo + {i}) + {i};
    }
    assert finished - {} == finished;
  }

  lemma AnyOneMore(tasks: seq<Task>, accepted: bool, among: set<nat>, i: nat)
    requires i < |tasks|
    ensures AnyBreaks(tasks, accepted, among + {i}) <==> AnyBreaks(tasks, accepted, among) || Breaks(tasks[i], accepted)
    ensures AnyRaises(tasks, among + {i}) <==> AnyRaises(tasks, among) || !tasks[i].alone.ended.Finished?
  {
    if AnyBreaks(tasks, accepted, among) {
      var j :| j in among && j < |tasks| && Breaks(tasks[j], accepted);
      assert j in among + {i};
    }
    if AnyRaises(tasks, among) {
      var j :| j in among && j < |tasks| && !tasks[j].alone.ended.Finished?;
      assert j in among + {i};
    }
    assert i in among + {i};
  }

  /** Cancel the losers and wait for all of them; an exception in one of them is raised again. */
  method CancelLosers(tasks: seq<Task>, before: map<nat, Branch>, losers: set<nat>)
    returns (results: map<nat, Branch>, raised: bool)
    requires Collected(tasks, before) && losers <= Indices(|tasks|) && before.Keys !! losers
    ensures raised <==> exists i :: i in losers && i < |tasks| && !tasks[i].hit.ended.Finished?
    ensures !raised ==> results.Keys == before.Keys + losers
    ensures !raised ==> forall i :: i in results ==>
              i < |tasks| && results[i] == (if i in losers then tasks[i].hit else tasks[i].alone) && results[i].ended.Finished?
  {
    results, raised := before, false;
    var todo := losers;
    while todo != {}
      invariant todo <= losers && results.Keys == before.Keys + (losers - todo)
      invariant forall i :: i in losers - todo ==> i < |tasks| && tasks[i].hit.ended.Finished?
      invariant forall i :: i in results ==>
                  i < |tasks| && results[i] == (if i in losers then tasks[i].hit else tasks[i].alone) && results[i].ended.Finished?
      decreases todo
    {
      var i :| i in todo;
      if !tasks[i].hit.ended.Finished? {
        return before, true;
      }
      results := results[i := tasks[i].hit];
      todo := todo - {i};
    }
  }

  /**
   `_execute_parallel_batch`, in every completion and cancellation order.  Nothing is left pending,
   whether the batch returns or raises: the branches that were still running when the first one that
   breaks was collected, or when the run's own task was cancelled, are cancelled and awaited; all
   others run to their own end.  The batch raises exactly if one of these ends is not a result or the
   run's own task was cancelled.
   */
  method ExecuteParallelBatch(tasks: seq<Task>, accepted: bool, wait: Wait) returns (end: BatchEnd)
    requires Completes(wait)
    ensures end == EndOf(tasks, accepted, wait)
    ensures EndedRightly(tasks, accepted, wait, end)
  {
    EndIsRight(tasks, accepted, wait);
    end := WaitForBranches(tasks, accepted, wait);
  }

  /** The loop over the wake-ups. */
  method WaitForBranches(tasks: seq<Task>, accepted: bool, wait: Wait) returns (end: BatchEnd)
    requires Completes(wait)
    ensures end == EndWith(tasks, HaltOf(tasks, accepted, wait, 0, Indices(|tasks|)))
  {
    var pending := Indices(|tasks|);
    var results: map<nat, Branch> := map[];
    var round := 0;
    ghost var halt := HaltOf(tasks, accepted, wait, 0, pending);
    while pending != {}
      invariant Waiting(tasks, results, pending)
      invariant halt == HaltOf(tasks, accepted, wait, round, pending)
      decreases |pending|
    {
      HaltNext(tasks, accepted, wait, round, pending);
      var wake := wait(round, pending);
      if wake.Interrupted? {
        end := Interrupt(tasks, pending);
        return;
      }
      Shrinks(pending, wake.finished);
      var ended, collected := Round(tasks, accepted, results, pending, wake.finished, wake.disturbed);
      if ended.Some? {
        return ended.value;
      }
      results, pending, round := collected, pending - wake.finished, round + 1;
    }
    end := Finish(tasks, results);
  }

  /** The run's own task was cancelled. */
  method Interrupt(tasks: seq<Task>, pending: set<nat>) returns (end: BatchEnd)
    ensures end == EndWith(tasks, Halt(pending, true))
  {
    var ends := AwaitAll(tasks, pending);
    end := Threw(ends, pending);
  }

  /** All branches have returned their results. */
  method Finish(tasks: seq<Task>, results: map<nat, Branch>) returns (end: BatchEnd)
    requires Waiting(tasks, results, {})
    ensures end == EndWith(tasks, Halt({}, false))
  {
    var branches := InBranchOrder(tasks, results, {});
    end := Done(branches, {});
  }

  /** The engine waits for `pending`; the other branches have returned results. */
  ghost predicate Waiting(tasks: seq<Task>, results: map<nat, Branch>, pending: set<nat>) {
    && pending <= Indices(|tasks|) && results.Keys == Indices(|tasks|) - pending
    && Collected(tasks, results)
  }

  lemma HaltNext(tasks: seq<Task>, accepted: bool, wait: Wait, round: nat, pending: set<nat>)
    requires Completes(wait) && pending != {}
    ensures var halt := HaltOf(tasks, accepted, wait, round, pending);
            match wait(round, pending)
            case Interrupted => halt == Halt(pending, true)
            case Awake(finished, disturbed) =>
              && finished <= pending
              && (AnyBreaks(tasks, accepted, finished) ==> halt == Halt(pending - finished, disturbed && pending != finished))
              && (!AnyBreaks(tasks, accepted, finished) || pending == finished ==>
                    halt == HaltOf(tasks, accepted, wait, round + 1, pending - finished))
  {
  }

  /** One wake-up: it ends the batch if a branch that finished breaks, and others are still running or it raised. */
  method Round(tasks: seq<Task>, accepted: bool, before: map<nat, Branch>, pending: set<nat>, finished: set<nat>, disturbed: bool)
    returns (end: Option<BatchEnd>, results: map<nat, Branch>)
    requires Waiting(tasks, before, pending) && finished <= pending
    ensures end.Some? ==> && AnyBreaks(tasks, accepted, finished)
                          && end.value == EndWith(tasks, Halt(pending - finished, disturbed && pending != finished))
    ensures end.None? ==> && Waiting(tasks, results, pending - finished)
                          && (AnyBreaks(tasks, accepted, finished) ==> pending == finished)
  {
    var cancel, raised;
    results, cancel, raised := Collect(tasks, accepted, before, finished);
    if raised {
      RaisesBreaks(tasks, accepted, finished);
      var aborted := AbortBatch(tasks, finished, pending - finished);
      return Some(aborted), results;
    }
    if pending - finished != {} && cancel {
      var rest := CancelRest(tasks, results, pending - finished, disturbed);
      return Some(rest), results;
    }
    return None, results;
  }

  /** A branch raised: the rest is cancelled and awaited. */
  method AbortBatch(tasks: seq<Task>, finished: set<nat>, rest: set<nat>) returns (end: BatchEnd)
    requires AnyRaises(tasks, finished) && finished !! rest
    ensures end == Threw(Ends(tasks, rest), rest) && !AllFinished(end.branches)
  {
    var ends := AwaitAll(tasks, rest);
    ghost var i :| i in finished && i < |tasks| && !tasks[i].alone.ended.Finished?;
    assert !ends[i].ended.Finished?;
    return Threw(ends, rest);
  }

  /** The others are cancelled because a branch decided; the run's own task may be cancelled while they are awaited. */
  method CancelRest(tasks: seq<Task>, results: map<nat, Branch>, losers: set<nat>, disturbed: bool) returns (end: BatchEnd)
    requires Waiting(tasks, results, losers)
    ensures end == EndWith(tasks, Halt(losers, disturbed))
  {
    if disturbed {
      var all := AwaitAll(tasks, losers);
      return Threw(all, losers);
    }
    var settled, raised := CancelLosers(tasks, results, losers);
    if raised {
      var ends := AwaitAll(tasks, losers);
      ghost var i :| i in losers && i < |tasks| && !tasks[i].hit.ended.Finished?;
      assert !ends[i].ended.Finished?;
      return Threw(ends, losers);
    }
    assert results.Keys + losers == Indices(|tasks|);
    var branches := InBranchOrder(tasks, settled, losers);
    return Done(branches, losers);
  }

  lemma RaisesBreaks(tasks: seq<Task>, accepted: bool, among: set<nat>)
    requires AnyRaises(tasks, among)
    ensures AnyBreaks(tasks, accepted, among)
  {
    var i :| i in among && i < |tasks| && !tasks[i].alone.ended.Finished?;
    assert Breaks(tasks[i], accepted);
  }

  /** The handler of any exception: cancel what is still running and wait for everything. */
  method AwaitAll(tasks: seq<Task>, running: set<nat>) returns (ends: seq<Branch>)
    ensures ends == Ends(tasks, running)
  {
    ends := [];
    for i := 0 to |tasks|
      invariant ends == Ends(tasks, running)[..i]
    {
      ends := ends + [if i in running then tasks[i].hit else tasks[i].alone];
    }
  }

  /** The results in branch order. */
  method InBranchOrder(tasks: seq<Task>, results: map<nat, Branch>, losers: set<nat>) returns (r: seq<Branch>)
    requires results.Keys == Indices(|tasks|)
    requires forall i :: i in results ==>
               i < |tasks| && results[i] == (if i in losers then tasks[i].hit else tasks[i].alone) && results[i].ended.Finished?
    ensures r == Ends(tasks, losers) && AllFinished(r)
  {
    assert forall i: nat :: i < |tasks| ==> i in results;
    r := seq(|tasks|, i requires 0 <= i < |tasks| && i in results => results[i]);
  }

  // ---- What the branches of a batch contribute ---------------------------------------------

  /** However a branch ends, its calls are its node's, and a result is a proper contribution. */
  predicate Behaves(node: PlanNode, b: Branch) {
    CallsOf(b.calls, node) && (b.ended.Finished? ==> WellShaped(b.ended.exec))
  }

  /** Left alone, and cancelled. */
  predicate BehavesEitherWay(node: PlanNode, t: Task) {
    Behaves(node, t.alone) && Behaves(node, t.hit)
  }

  lemma BranchBehaves(env: Env, tick: nat, node: PlanNode, ctx: Context, cut: Cut)
    ensures BehavesEitherWay(node, MakeTask(env, tick, node, ctx, cut))
  {
    NodeShape(env, tick, node, ctx);
    if cut.Answers? {
      ConcludeShape(node, ctx, AnswerOf(node, cut));
    }
  }

  function AnswerOf(node: PlanNode, cut: Cut): Tried
    requires cut.Answers?
  {
    Tried(cut.after, Answered(node, cut.failed, cut.raised), cut.raised, 0)
  }

  /** A branch that was not cut off is completed exactly by a call of its own that returned. */
  lemma BranchCompletes(env: Env, tick: nat, node: PlanNode, ctx: Context, cut: Cut)
    ensures var t := MakeTask(env, tick, node, ctx, cut);
            && (t.alone.ended.Finished? ==> (t.alone.ended.exec.completed <==> CallReturned(t.alone.calls, node.id)))
            && (t.hit.ended.Finished? && !t.hit.cancelled ==>
                  (t.hit.ended.exec.completed <==> CallReturned(t.hit.calls, node.id)))
            && (t.hit.cancelled ==> t.hit.ended == Finished(COMPLETED))
  {
    NodeShape(env, tick, node, ctx);
    if cut.Answers? {
      var calls := Answered(node, cut.failed, cut.raised);
      assert calls[|calls| - 1] == Call(node.id, node.adapter, cut.raised == Returned);
      ConcludeShape(node, ctx, AnswerOf(node, cut));
    }
  }

  function Afters(branches: seq<Branch>): seq<Context> {
    seq(|branches|, i requires 0 <= i < |branches| => branches[i].after)
  }

  /** What branch `i` out of `count` starts with. */
  function BranchContext(ctx: Context, count: nat, i: nat): Context
    requires i < count
  {
    ctx.(budget := BranchBudget(ctx, count, i))
  }

  function BranchContexts(ctx: Context, count: nat): (own: seq<Context>)
    ensures |own| == count
  {
    seq(count, i requires 0 <= i < count => BranchContext(ctx, count, i))
  }

  function TaskAt(env: Env, cuts: (nat, Context) -> Cut, index: nat, batch: seq<PlanNode>, ctx: Context, i: nat): Task
    requires i < |batch|
  {
    var own := BranchContext(ctx, |batch|, i);
    MakeTask(env, index + i, batch[i], own, cuts(index + i, own))
  }

  function TasksOf(env: Env, cuts: (nat, Context) -> Cut, index: nat, batch: seq<PlanNode>, ctx: Context): (tasks: seq<Task>)
    ensures |tasks| == |batch|
  {
    seq(|batch|, i requires 0 <= i < |batch| => TaskAt(env, cuts, index, batch, ctx, i))
  }

  /** Every branch may make an attempt. */
  lemma BranchHasRoom(ctx: Context, count: nat, i: nat)
    requires i < count <= ctx.budget.attempts - |ctx.attempts|
    ensures |BranchContext(ctx, count, i).attempts| < BranchContext(ctx, count, i).budget.attempts
  {
    SharesPartition(Left(ctx.budget.attempts, |ctx.attempts|), count);
  }

  /** `_parallel_contexts`: one copy of the context per branch, each with its own slice of the budget. */
  method ParallelContexts(ctx: Context, count: nat) returns (contexts: seq<Context>)
    requires 0 < count <= ctx.budget.attempts - |ctx.attempts|
    ensures |contexts| == count && Copies(ctx, contexts)
    ensures forall i :: 0 <= i < count ==> contexts[i] == BranchContext(ctx, count, i)
  {
    var budgets := PartitionBudgets(ctx, count);
    contexts := seq(count, i requires 0 <= i < count => ctx.(budget := budgets.value[i]));
    AreCopies(ctx, contexts, budgets.value);
  }

  /** Copies of a context whose budgets divide what is left of its own, each with room for an attempt. */
  ghost predicate Copies(ctx: Context, contexts: seq<Context>) {
    && (forall i :: 0 <= i < |contexts| ==> contexts[i] == ctx.(budget := contexts[i].budget))
    && (forall i :: 0 <= i < |contexts| ==> contexts[i].budget.attempts > |contexts[i].attempts|)
    && Divided(ctx, Budgets(contexts))
  }

  lemma AreCopies(ctx: Context, contexts: seq<Context>, budgets: seq<Budget>)
    requires |contexts| == |budgets| && Divided(ctx, budgets)
    requires forall i :: 0 <= i < |budgets| ==> contexts[i] == ctx.(budget := budgets[i]) && budgets[i].attempts > |ctx.attempts|
    ensures Copies(ctx, contexts)
  {
    assert Budgets(contexts) == budgets;
  }

  function Budgets(contexts: seq<Context>): seq<Budget> {
    seq(|contexts|, i requires 0 <= i < |contexts| => contexts[i].budget)
  }

  method MakeTasks(env: Env, cuts: (nat, Context) -> Cut, index: nat, batch: seq<PlanNode>, ctx: Context, contexts: seq<Context>)
    returns (tasks: seq<Task>)
    requires |contexts| == |batch|
    requires forall i :: 0 <= i < |batch| ==> contexts[i] == BranchContext(ctx, |batch|, i)
    ensures tasks == TasksOf(env, cuts, index, batch, ctx)
  {
    tasks := [];
    for i := 0 to |batch|
      invariant |tasks| == i && Made(env, cuts, index, batch, ctx, tasks)
    {
      var task := StartTask(env, cuts, index, batch, ctx, contexts[i], i);
      tasks := tasks + [task];
    }
    MadeAll(env, cuts, index, batch, ctx, tasks);
  }

  method StartTask(env: Env, cuts: (nat, Context) -> Cut, index: nat, batch: seq<PlanNode>, ghost ctx: Context, own: Context, i: nat)
    returns (task: Task)
    requires i < |batch| && own == BranchContext(ctx, |batch|, i)
    ensures task == TaskAt(env, cuts, index, batch, ctx, i)
  {
    task := MakeTask(env, index + i, batch[i], own, cuts(index + i, own));
  }

  ghost predicate Made(env: Env, cuts: (nat, Context) -> Cut, index: nat, batch: seq<PlanNode>, ctx: Context, tasks: seq<Task>) {
    |tasks| <= |batch| && forall i :: 0 <= i < |tasks| ==> tasks[i] == TaskAt(env, cuts, index, batch, ctx, i)
  }

  lemma MadeAll(env: Env, cuts: (nat, Context) -> Cut, index: nat, batch: seq<PlanNode>, ctx: Context, tasks: seq<Task>)
    requires Made(env, cuts, index, batch, ctx, tasks) && |tasks| == |batch|
    ensures tasks == TasksOf(env, cuts, index, batch, ctx)
  {
  }

  ghost predicate AllBehave(batch: seq<PlanNode>, branches: seq<Branch>) {
    |branches| == |batch| && forall i :: 0 <= i < |batch| ==> Behaves(batch[i], branches[i])
  }

  lemma BatchBehaves(env: Env, cuts: (nat, Context) -> Cut, index: nat, batch: seq<PlanNode>, ctx: Context, struck: set<nat>)
    ensures AllBehave(batch, Ends(TasksOf(env, cuts, index, batch, ctx), struck))
  {
    var tasks := TasksOf(env, cuts, index, batch, ctx);
    forall i | 0 <= i < |batch| ensures Behaves(batch[i], Ends(tasks, struck)[i]) {
      TaskBehaves(env, cuts, index, batch, ctx, i);
    }
  }

  /** The same of a member of a batch. */
  predicate MemberBehaves(node: PlanNode, t: Task) {
    BehavesEitherWay(node, t)
  }

  lemma TaskBehaves(env: Env, cuts: (nat, Context) -> Cut, index: nat, batch: seq<PlanNode>, ctx: Context, i: nat)
    requires i < |batch|
    ensures MemberBehaves(batch[i], TaskAt(env, cuts, index, batch, ctx, i))
  {
    var own := BranchContext(ctx, |batch|, i);
    BranchBehavesSo(env, index + i, batch[i], own, cuts(index + i, own), TaskAt(env, cuts, index, batch, ctx, i));
  }

  lemma BranchBehavesSo(env: Env, tick: nat, node: PlanNode, own: Context, cut: Cut, t: Task)
    requires t == MakeTask(env, tick, node, own, cut)
    ensures MemberBehaves(node, t)
  {
    BranchBehaves(env, tick, node, own, cut);
  }

  /** Cancelled adapters do not let unexpected exceptions out either. */
  ghost predicate CalmCuts(cuts: (nat, Context) -> Cut) {
    forall t: nat, ctx: Context :: cuts(t, ctx).Answers? ==> cuts(t, ctx).raised != Unexpected
  }

  lemma BranchReturns(env: Env, cuts: (nat, Context) -> Cut, tick: nat, node: PlanNode, ctx: Context)
    requires Calm(env) && CalmCuts(cuts)
    ensures var t := MakeTask(env, tick, node, ctx, cuts(tick, ctx)); t.alone.ended.Finished? && t.hit.ended.Finished?
  {
    NodeReturns(env, tick, node, ctx);
    assert cuts(tick, ctx).Answers? ==> cuts(tick, ctx).raised != Unexpected;
  }

  /** In a calm environment a batch returns. */
  lemma BatchReturns(env: Env, wait: Wait, cuts: (nat, Context) -> Cut, index: nat, batch: seq<PlanNode>, ctx: Context)
    requires Calm(env) && CalmCuts(cuts) && Completes(wait) && Quiet(wait)
    ensures EndOf(TasksOf(env, cuts, index, batch, ctx), ctx.accepted, wait).Done?
  {
    var tasks := TasksOf(env, cuts, index, batch, ctx);
    StruckHasCause(tasks, ctx.accepted, wait, 0, Indices(|tasks|));
    AllReturn(env, cuts, index, batch, ctx, HaltOf(tasks, ctx.accepted, wait, 0, Indices(|tasks|)).struck);
  }

  lemma AllReturn(env: Env, cuts: (nat, Context) -> Cut, index: nat, batch: seq<PlanNode>, ctx: Context, struck: set<nat>)
    requires Calm(env) && CalmCuts(cuts)
    ensures AllFinished(Ends(TasksOf(env, cuts, index, batch, ctx), struck))
  {
    var tasks := TasksOf(env, cuts, index, batch, ctx);
    forall i | 0 <= i < |batch| ensures Ends(tasks, struck)[i].ended.Finished? {
      TaskReturns(env, cuts, index, batch, ctx, i);
    }
  }

  lemma TaskReturns(env: Env, cuts: (nat, Context) -> Cut, index: nat, batch: seq<PlanNode>, ctx: Context, i: nat)
    requires Calm(env) && CalmCuts(cuts) && i < |batch|
    ensures TaskAt(env, cuts, index, batch, ctx, i).alone.ended.Finished?
    ensures TaskAt(env, cuts, index, batch, ctx, i).hit.ended.Finished?
  {
    BranchReturns(env, cuts, index + i, batch[i], BranchContext(ctx, |batch|, i));
  }

  // ---- Budget of a batch -------------------------------------------------------------------

  /** Neither the adapters nor a cancellation spend beyond what the branch was given. */
  ghost predicate Disciplined(env: Env, cuts: (nat, Context) -> Cut) {
    && Honest(env)
    && (forall t: nat, ctx: Context :: !cuts(t, ctx).Survives? ==> SpendsUpTo(ctx, cuts(t, ctx).after, 0))
  }

  lemma BranchSpends(env: Env, cuts: (nat, Context) -> Cut, tick: nat, node: PlanNode, ctx: Context)
    requires Disciplined(env, cuts)
    ensures var t := MakeTask(env, tick, node, ctx, cuts(tick, ctx));
            SpendsUpTo(ctx, t.alone.after, t.alone.records) && SpendsUpTo(ctx, t.hit.after, t.hit.records)
  {
    NodeSpends(env, tick, node, ctx);
    var cut := cuts(tick, ctx);
    if !cut.Survives? {
      assert SpendsUpTo(ctx, cut.after, 0);
      if cut.Answers? {
        ConcludeSpends(node, ctx, AnswerOf(node, cut));
      }
    }
  }

  function Slices(ctx: Context, count: nat): (budgets: seq<Budget>)
    ensures |budgets| == count && IsPartition(ctx, budgets)
  {
    seq(count, i requires 0 <= i < count => BranchBudget(ctx, count, i))
  }

  /** Each branch is accounted for within its own slice. */
  ghost predicate BranchesAccounted(ctx: Context, branches: seq<Branch>) {
    forall i :: 0 <= i < |branches| ==>
      SpendsUpTo(BranchContext(ctx, |branches|, i), branches[i].after, branches[i].records)
  }

  /** The attempts that the branches added to record the deadline. */
  function Records(branches: seq<Branch>): seq<nat> {
    seq(|branches|, i requires 0 <= i < |branches| => branches[i].records)
  }

  /** The branches together spend no more than the run had left. */
  lemma BatchSpends(ctx: Context, branches: seq<Branch>)
    requires branches != [] && BranchesAccounted(ctx, branches)
    ensures Spends(ctx, MergeAll(ctx, Afters(branches)))
  {
    var budgets := Slices(ctx, |branches|);
    forall i | 0 <= i < |branches|
      ensures Spends(ctx.(budget := budgets[i]), Afters(branches)[i])
    {
      assert SpendsUpTo(BranchContext(ctx, |branches|, i), branches[i].after, branches[i].records);
    }
    MergeSpends(ctx, Afters(branches), budgets);
  }

  lemma BatchAttempts(ctx: Context, branches: seq<Branch>)
    requires branches != [] && BranchesAccounted(ctx, branches) && |ctx.attempts| <= ctx.budget.attempts
    ensures |MergeAll(ctx, Afters(branches)).attempts| <= ctx.budget.attempts + Sum(Records(branches))
  {
    var budgets := Slices(ctx, |branches|);
    forall i | 0 <= i < |branches|
      ensures |ctx.attempts| <= |Afters(branches)[i].attempts| <= budgets[i].attempts + Records(branches)[i]
    {
      BranchAttempts(ctx, BranchContext(ctx, |branches|, i), branches[i].after, branches[i].records);
    }
    MergeKeepsAttempts(ctx, Afters(branches), budgets, Records(branches));
  }

  lemma BranchAttempts(ctx: Context, own: Context, after: Context, records: nat)
    requires SpendsUpTo(own, after, records) && own.attempts == ctx.attempts && |ctx.attempts| <= own.budget.attempts
    ensures |ctx.attempts| <= |after.attempts| <= own.budget.attempts + records
  {
  }

  lemma AccountedBatch(ctx: Context, branches: seq<Branch>)
    requires branches != [] && BranchesAccounted(ctx, branches) && |ctx.attempts| <= ctx.budget.attempts
    ensures SpendsUpTo(ctx, MergeAll(ctx, Afters(branches)), Sum(Records(branches)))
  {
    BatchSpends(ctx, branches);
    BatchAttempts(ctx, branches);
  }

  lemma BranchesAreAccounted(env: Env, cuts: (nat, Context) -> Cut, index: nat, batch: seq<PlanNode>, ctx: Context, struck: set<nat>)
    requires Disciplined(env, cuts)
    ensures BranchesAccounted(ctx, Ends(TasksOf(env, cuts, index, batch, ctx), struck))
  {
    var branches := Ends(TasksOf(env, cuts, index, batch, ctx), struck);
    forall i | 0 <= i < |branches|
      ensures SpendsUpTo(BranchContext(ctx, |branches|, i), branches[i].after, branches[i].records)
    {
      TaskSpends(env, cuts, index, batch, ctx, i);
    }
  }

  lemma TaskSpends(env: Env, cuts: (nat, Context) -> Cut, index: nat, batch: seq<PlanNode>, ctx: Context, i: nat)
    requires Disciplined(env, cuts) && i < |batch|
    ensures var t := TaskAt(env, cuts, index, batch, ctx, i);
            && SpendsUpTo(BranchContext(ctx, |batch|, i), t.alone.after, t.alone.records)
            && SpendsUpTo(BranchContext(ctx, |batch|, i), t.hit.after, t.hit.records)
  {
    BranchSpends(env, cuts, index + i, batch[i], BranchContext(ctx, |batch|, i));
  }

  /** Merge the branch contexts one after the other, in batch order. */
  method MergeBranches(ctx: Context, branches: seq<Branch>) returns (merged: Context)
    ensures merged == MergeAll(ctx, Afters(branches))
  {
    merged := ctx;
    var afters := Afters(branches);
    for i := 0 to |afters|
      invariant merged == MergeAll(ctx, afters[..i])
    {
      assert afters[..i + 1][..i] == afters[..i];
      merged := MergeOne(merged, afters[i], ctx);
    }
    assert afters[..|afters|] == afters;
  }

  /** Split the budget and run the branches. */
  method RunBatch(env: Env, wait: Wait, cuts: (nat, Context) -> Cut, index: nat, batch: seq<PlanNode>, ctx: Context)
    returns (end: BatchEnd)
    requires Completes(wait) && 0 < |batch| <= ctx.budget.attempts - |ctx.attempts|
    ensures end == EndOf(TasksOf(env, cuts, index, batch, ctx), ctx.accepted, wait)
  {
    var contexts := ParallelContexts(ctx, |batch|);
    var tasks := MakeTasks(env, cuts, index, batch, ctx, contexts);
    end := ExecuteParallelBatch(tasks, ctx.accepted, wait);
  }

  /**
   A batch as a whole: every branch behaves, the batch stays within the run's budget but for the deadline
   records even if it raises, and it returns in a calm environment.
   */
  lemma BatchOutcome(env: Env, wait: Wait, cuts: (nat, Context) -> Cut, index: nat, batch: seq<PlanNode>, ctx: Context)
    requires Completes(wait) && 0 < |batch| <= ctx.budget.attempts - |ctx.attempts|
    ensures var end := EndOf(TasksOf(env, cuts, index, batch, ctx), ctx.accepted, wait);
            && AllBehave(batch, end.branches)
            && (end.Done? ==> AllFinished(end.branches))
            && (Calm(env) && CalmCuts(cuts) && Quiet(wait) ==> end.Done?)
            && (Disciplined(env, cuts) ==> SpendsUpTo(ctx, MergeAll(ctx, Afters(end.branches)), Sum(Records(end.branches))))
  {
    var tasks := TasksOf(env, cuts, index, batch, ctx);
    var struck := HaltOf(tasks, ctx.accepted, wait, 0, Indices(|tasks|)).struck;
    BatchBehaves(env, cuts, index, batch, ctx, struck);
    if Calm(env) && CalmCuts(cuts) && Quiet(wait) {
      BatchReturns(env, wait, cuts, index, batch, ctx);
    }
    if Disciplined(env, cuts) {
      BranchesAreAccounted(env, cuts, index, batch, ctx, struck);
      AccountedBatch(ctx, Ends(tasks, struck));
    }
  }
}
