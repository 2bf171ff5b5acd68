/**
 The execution context of `src/fetech/adapters/base.py`, and how `src/fetech/executor.py` splits its
 budget over parallel branches and merges the branches back.
 */
module Context {
  import opened Common

  datatype IntField = Redirects | Bytes | DecompressedBytes | ArchiveMembers | ModelTokens
  datatype RealField = BrowserSeconds | MonetaryCeiling

  /** The other numeric fields that an amount may be charged to; the split over branches does not look at their use. */
  datatype SharedField = DeadlineSeconds | AttemptCount | CrawlPages | CrawlDepth | ArchiveRatio

  datatype Budget = Budget(attempts: nat, redirects: nat, bytes: nat, decompressedBytes: nat,
                           archiveMembers: nat, modelTokens: nat, browserSeconds: real, monetaryCeiling: real,
                           deadlineSeconds: real, crawlPages: nat, crawlDepth: nat, archiveRatio: real)
  {
    function Shared(f: SharedField): real {
      match f
      case DeadlineSeconds => deadlineSeconds
      case AttemptCount => attempts as real
      case CrawlPages => crawlPages as real
      case CrawlDepth => crawlDepth as real
      case ArchiveRatio => archiveRatio
    }

    function Limit(f: IntField): nat {
      match f
      case Redirects => redirects
      case Bytes => bytes
      case DecompressedBytes => decompressedBytes
      case ArchiveMembers => archiveMembers
      case ModelTokens => modelTokens
    }

    function Ceiling(f: RealField): real {
      match f
      case BrowserSeconds => browserSeconds
      case MonetaryCeiling => monetaryCeiling
    }
  }

  datatype AttemptStatus = Planned | InProgress | Succeeded | FailedAttempt | CancelledAttempt

  datatype Attempt = Attempt(capability: string, status: AttemptStatus, failure: Option<string>,
                             consumed: map<IntField, nat>, spent: map<RealField, real>, other: map<SharedField, real>)

  datatype OutcomeStatus = Applied | NotApplicable | FailedOutcome | Blocked | DependencyMissing

  datatype Outcome = Outcome(capability: string, status: OutcomeStatus, stage: string)

  /** The lists of a context as a value. */
  datatype Context = Context(
    budget: Budget, resources: seq<string>, artifacts: seq<string>, attempts: seq<Attempt>,
    outcomes: seq<Outcome>, decisions: seq<string>, diagnostics: seq<string>, events: seq<string>,
    accepted: bool, crawlReport: Option<string>)

  // ---- Consumption -------------------------------------------------------------------------

  function Used(a: Attempt, f: IntField): nat {
    if f in a.consumed then a.consumed[f] else 0
  }

  function Spent(a: Attempt, f: RealField): real {
    if f in a.spent then a.spent[f] else 0.0
  }

  function Other(a: Attempt, f: SharedField): real {
    if f in a.other then a.other[f] else 0.0
  }

  function ConsumedShared(attempts: seq<Attempt>, f: SharedField): real {
    if attempts == [] then 0.0 else ConsumedShared(attempts[..|attempts| - 1], f) + Other(attempts[|attempts| - 1], f)
  }

  /** Cumulative consumption of one field. */
  function Consumed(attempts: seq<Attempt>, f: IntField): nat {
    if attempts == [] then 0 else Consumed(attempts[..|attempts| - 1], f) + Used(attempts[|attempts| - 1], f)
  }

  function ConsumedReal(attempts: seq<Attempt>, f: RealField): real {
    if attempts == [] then 0.0 else ConsumedReal(attempts[..|attempts| - 1], f) + Spent(attempts[|attempts| - 1], f)
  }

  function Left(ceiling: nat, consumed: nat): nat {
    if consumed <= ceiling then ceiling - consumed else 0
  }

  lemma ConsumedConcat(a: seq<Attempt>, b: seq<Attempt>, f: IntField)
    ensures Consumed(a + b, f) == Consumed(a, f) + Consumed(b, f)
  {
    if b == [] {
      assert a + b == a;
    } else {
      var front, last := b[..|b| - 1], b[|b| - 1];
      assert (a + b)[..|a + b| - 1] == a + front && (a + b)[|a + b| - 1] == last;
      ConsumedConcat(a, front, f);
    }
  }

  lemma ConsumedRealConcat(a: seq<Attempt>, b: seq<Attempt>, f: RealField)
    ensures ConsumedReal(a + b, f) == ConsumedReal(a, f) + ConsumedReal(b, f)
  {
    if b == [] {
      assert a + b == a;
    } else {
      var front, last := b[..|b| - 1], b[|b| - 1];
      assert (a + b)[..|a + b| - 1] == a + front && (a + b)[|a + b| - 1] == last;
      ConsumedRealConcat(a, front, f);
    }
  }

  // ---- Splitting the budget ----------------------------------------------------------------

  /** Branch `i`'s part of `remaining`: an even share, and one more for the first branches. */
  function Share(remaining: nat, count: nat, i: nat): nat
    requires i < count
  {
    remaining / count + (if i < remaining % count then 1 else 0)
  }

  /** Sum of the first `n` shares. */
  function SumShares(remaining: nat, count: nat, n: nat): nat
    requires n <= count
  {
    if n == 0 then 0 else SumShares(remaining, count, n - 1) + Share(remaining, count, n - 1)
  }

  lemma {:induction false} SumSharesClosed(remaining: nat, count: nat, n: nat)
    requires n <= count && count > 0
    ensures SumShares(remaining, count, n) == n * (remaining / count) + Lesser(n, remaining % count)
  {
    if n > 0 {
      SumSharesClosed(remaining, count, n - 1);
      OneMoreShare(n, remaining / count);
    }
  }

  function Lesser(a: nat, b: nat): nat {
    if a < b then a else b
  }

  lemma OneMoreShare(n: nat, share: nat)
    requires n > 0
    ensures n * share == (n - 1) * share + share
  {
  }

  /** The shares are exactly the remainder, and differ by at most one. */
  lemma SharesPartition(remaining: nat, count: nat)
    requires count > 0
    ensures SumShares(remaining, count, count) == remaining
    ensures forall i, j :: 0 <= i <= j < count ==> Share(remaining, count, j) <= Share(remaining, count, i) <= Share(remaining, count, j) + 1
    ensures count <= remaining ==> forall i :: 0 <= i < count ==> Share(remaining, count, i) >= 1
  {
    SumSharesClosed(remaining, count, count);
    assert count * (remaining / count) + remaining % count == remaining;
    if count <= remaining {
      assert remaining / count >= 1;
    }
  }

  function Slice(attempts: seq<Attempt>, budget: Budget, f: IntField, count: nat, i: nat): nat
    requires i < count
  {
    Consumed(attempts, f) + Share(Left(budget.Limit(f), Consumed(attempts, f)), count, i)
  }

  function SliceReal(attempts: seq<Attempt>, budget: Budget, f: RealField, count: nat): real
    requires count > 0
  {
    var consumed := ConsumedReal(attempts, f);
    consumed + (if consumed <= budget.Ceiling(f) then budget.Ceiling(f) - consumed else 0.0) / (count as real)
  }

  /** The budget of branch `i` out of `count`. */
  function BranchBudget(ctx: Context, count: nat, i: nat): Budget
    requires i < count
  {
    var made := ctx.attempts;
    Budget(|made| + Share(Left(ctx.budget.attempts, |made|), count, i),
           Slice(made, ctx.budget, Redirects, count, i),
           Slice(made, ctx.budget, Bytes, count, i),
           Slice(made, ctx.budget, DecompressedBytes, count, i),
           Slice(made, ctx.budget, ArchiveMembers, count, i),
           Slice(made, ctx.budget, ModelTokens, count, i),
           SliceReal(made, ctx.budget, BrowserSeconds, count),
           SliceReal(made, ctx.budget, MonetaryCeiling, count),
           ctx.budget.deadlineSeconds, ctx.budget.crawlPages, ctx.budget.crawlDepth, ctx.budget.archiveRatio)
  }

  /** Sum over the first `n` branches of what their budgets allow above the current consumption. */
  function SumAllowances(ctx: Context, budgets: seq<Budget>, f: IntField, n: nat): int
    requires n <= |budgets|
  {
    if n == 0 then 0 else SumAllowances(ctx, budgets, f, n - 1) + budgets[n - 1].Limit(f) - Consumed(ctx.attempts, f)
  }

  function SumAttemptAllowances(ctx: Context, budgets: seq<Budget>, n: nat): int
    requires n <= |budgets|
  {
    if n == 0 then 0 else SumAttemptAllowances(ctx, budgets, n - 1) + budgets[n - 1].attempts - |ctx.attempts|
  }

  ghost predicate IsPartition(ctx: Context, budgets: seq<Budget>) {
    forall i :: 0 <= i < |budgets| ==> budgets[i] == BranchBudget(ctx, |budgets|, i)
  }

  lemma {:induction false} AllowancesAreShares(ctx: Context, budgets: seq<Budget>, f: IntField, n: nat)
    requires IsPartition(ctx, budgets) && n <= |budgets|
    ensures SumAllowances(ctx, budgets, f, n) == SumShares(Left(ctx.budget.Limit(f), Consumed(ctx.attempts, f)), |budgets|, n)
  {
    if n > 0 {
      AllowancesAreShares(ctx, budgets, f, n - 1);
      assert budgets[n - 1].Limit(f) == Slice(ctx.attempts, ctx.budget, f, |budgets|, n - 1);
    }
  }

  lemma {:induction false} AttemptAllowancesAreShares(ctx: Context, budgets: seq<Budget>, n: nat)
    requires IsPartition(ctx, budgets) && n <= |budgets|
    ensures SumAttemptAllowances(ctx, budgets, n) == SumShares(Left(ctx.budget.attempts, |ctx.attempts|), |budgets|, n)
  {
    if n > 0 {
      AttemptAllowancesAreShares(ctx, budgets, n - 1);
    }
  }

  function SumAllowancesReal(ctx: Context, budgets: seq<Budget>, g: RealField, n: nat): real
    requires n <= |budgets|
  {
    if n == 0 then 0.0 else SumAllowancesReal(ctx, budgets, g, n - 1) + budgets[n - 1].Ceiling(g) - ConsumedReal(ctx.attempts, g)
  }

  /** What is left of a measured field is divided evenly. */
  lemma {:induction false} RealAllowances(ctx: Context, budgets: seq<Budget>, g: RealField, n: nat)
    requires IsPartition(ctx, budgets) && n <= |budgets| && budgets != []
    ensures var left := ctx.budget.Ceiling(g) - ConsumedReal(ctx.attempts, g);
            SumAllowancesReal(ctx, budgets, g, n) == Repeat((if left >= 0.0 then left else 0.0) / (|budgets| as real), n)
    decreases n
  {
    if n > 0 {
      RealAllowances(ctx, budgets, g, n - 1);
      assert budgets[n - 1].Ceiling(g) == SliceReal(ctx.attempts, ctx.budget, g, |budgets|);
    }
  }

  /** Above what is consumed already, the slices add up to exactly what is left. */
  ghost predicate SlicesAddUp(ctx: Context, budgets: seq<Budget>) {
    && (var left := ctx.budget.attempts - |ctx.attempts|;
        SumAttemptAllowances(ctx, budgets, |budgets|) == if left >= 0 then left else 0)
    && (forall f: IntField ::
          var left := ctx.budget.Limit(f) - Consumed(ctx.attempts, f);
          SumAllowances(ctx, budgets, f, |budgets|) == if left >= 0 then left else 0)
    && (forall g: RealField ::
          var left := ctx.budget.Ceiling(g) - ConsumedReal(ctx.attempts, g);
          SumAllowancesReal(ctx, budgets, g, |budgets|) == if left >= 0.0 then left else 0.0)
  }

  /** Earlier slices are at most one larger, measured ones equal, and what is not split is kept. */
  ghost predicate SlicesAreEven(ctx: Context, budgets: seq<Budget>) {
    && (forall i, j :: 0 <= i <= j < |budgets| ==> budgets[j].attempts <= budgets[i].attempts <= budgets[j].attempts + 1)
    && (forall i, j, f: IntField :: 0 <= i <= j < |budgets| ==> budgets[j].Limit(f) <= budgets[i].Limit(f) <= budgets[j].Limit(f) + 1)
    && (forall i, j, g: RealField :: 0 <= i <= j < |budgets| ==> budgets[i].Ceiling(g) == budgets[j].Ceiling(g))
    && (forall i :: 0 <= i < |budgets| ==>
          && budgets[i].deadlineSeconds == ctx.budget.deadlineSeconds && budgets[i].crawlPages == ctx.budget.crawlPages
          && budgets[i].crawlDepth == ctx.budget.crawlDepth && budgets[i].archiveRatio == ctx.budget.archiveRatio)
  }

  ghost predicate Divided(ctx: Context, budgets: seq<Budget>) {
    SlicesAddUp(ctx, budgets) && SlicesAreEven(ctx, budgets)
  }

  lemma PartitionAddsUp(ctx: Context, budgets: seq<Budget>)
    requires IsPartition(ctx, budgets) && budgets != []
    ensures SlicesAddUp(ctx, budgets)
  {
    var count := |budgets|;
    SharesPartition(Left(ctx.budget.attempts, |ctx.attempts|), count);
    AttemptAllowancesAreShares(ctx, budgets, count);
    forall f: IntField
      ensures SumAllowances(ctx, budgets, f, count) == Left(ctx.budget.Limit(f), Consumed(ctx.attempts, f))
    {
      SharesPartition(Left(ctx.budget.Limit(f), Consumed(ctx.attempts, f)), count);
      AllowancesAreShares(ctx, budgets, f, count);
    }
    forall g: RealField
      ensures var left := ctx.budget.Ceiling(g) - ConsumedReal(ctx.attempts, g);
              SumAllowancesReal(ctx, budgets, g, count) == if left >= 0.0 then left else 0.0
    {
      var left := ctx.budget.Ceiling(g) - ConsumedReal(ctx.attempts, g);
      RealAllowances(ctx, budgets, g, count);
      EvenShares(if left >= 0.0 then left else 0.0, count);
    }
  }

  lemma PartitionIsEven(ctx: Context, budgets: seq<Budget>)
    requires IsPartition(ctx, budgets) && budgets != []
    ensures SlicesAreEven(ctx, budgets)
  {
    var count := |budgets|;
    SharesPartition(Left(ctx.budget.attempts, |ctx.attempts|), count);
    forall i, j, f: IntField | 0 <= i <= j < count
      ensures budgets[j].Limit(f) <= budgets[i].Limit(f) <= budgets[j].Limit(f) + 1
    {
      SharesPartition(Left(ctx.budget.Limit(f), Consumed(ctx.attempts, f)), count);
      assert budgets[i].Limit(f) == Slice(ctx.attempts, ctx.budget, f, count, i);
      assert budgets[j].Limit(f) == Slice(ctx.attempts, ctx.budget, f, count, j);
    }
    forall i, g: RealField | 0 <= i < count ensures budgets[i].Ceiling(g) == SliceReal(ctx.attempts, ctx.budget, g, count) {}
  }

  /** `_partition_parallel_budgets`: the branch slices add up to what is left, field by field. */
  method PartitionBudgets(ctx: Context, count: int) returns (r: Option<seq<Budget>>)
    ensures r.Some? <==> count > 0
    ensures r.Some? ==> |r.value| == count && IsPartition(ctx, r.value)
    ensures r.Some? ==> Divided(ctx, r.value)
    ensures r.Some? && count <= ctx.budget.attempts - |ctx.attempts| ==>
              forall i :: 0 <= i < count ==> r.value[i].attempts > |ctx.attempts|
  {
    if count <= 0 {
      return None;
    }
    var budgets: seq<Budget> := [];
    for i := 0 to count
      invariant |budgets| == i
      invariant forall j :: 0 <= j < i ==> budgets[j] == BranchBudget(ctx, count, j)
    {
      budgets := budgets + [BranchBudget(ctx, count, i)];
    }
    PartitionAddsUp(ctx, budgets);
    PartitionIsEven(ctx, budgets);
    SharesPartition(Left(ctx.budget.attempts, |ctx.attempts|), count);
    return Some(budgets);
  }

  // ---- Merging branches --------------------------------------------------------------------

  function Suffix<T>(s: seq<T>, n: nat): seq<T> {
    if n <= |s| then s[n..] else []
  }

  /** Append what one branch added to its copy of the baseline lists. */
  function MergeOne(ctx: Context, branch: Context, base: Context): Context {
    ctx.(resources := ctx.resources + Suffix(branch.resources, |base.resources|),
         artifacts := ctx.artifacts + Suffix(branch.artifacts, |base.artifacts|),
         attempts := ctx.attempts + Suffix(branch.attempts, |base.attempts|),
         outcomes := ctx.outcomes + Suffix(branch.outcomes, |base.outcomes|),
         decisions := ctx.decisions + Suffix(branch.decisions, |base.decisions|),
         diagnostics := ctx.diagnostics + Suffix(branch.diagnostics, |base.diagnostics|),
         events := ctx.events + Suffix(branch.events, |base.events|),
         accepted := ctx.accepted || branch.accepted,
         crawlReport := if branch.crawlReport.Some? then branch.crawlReport else ctx.crawlReport)
  }

  function MergeAll(base: Context, branches: seq<Context>): Context {
    if branches == [] then base
    else MergeOne(MergeAll(base, branches[..|branches| - 1]), branches[|branches| - 1], base)
  }

  /** What the branches added beyond their first `n` elements, in branch order. */
  function Additions<T>(lists: seq<seq<T>>, n: nat): seq<T> {
    if lists == [] then [] else Additions(lists[..|lists| - 1], n) + Suffix(lists[|lists| - 1], n)
  }

  /** The lists of a context whose elements the executor only copies. */
  datatype Plain = Resources | Artifacts | Decisions | Diagnostics | Events

  function PlainOf(c: Context, which: Plain): seq<string> {
    match which
    case Resources => c.resources
    case Artifacts => c.artifacts
    case Decisions => c.decisions
    case Diagnostics => c.diagnostics
    case Events => c.events
  }

  function PlainLists(cs: seq<Context>, which: Plain): seq<seq<string>> {
    seq(|cs|, i requires 0 <= i < |cs| => PlainOf(cs[i], which))
  }

  function AttemptLists(cs: seq<Context>): seq<seq<Attempt>> {
    seq(|cs|, i requires 0 <= i < |cs| => cs[i].attempts)
  }

  function OutcomeLists(cs: seq<Context>): seq<seq<Outcome>> {
    seq(|cs|, i requires 0 <= i < |cs| => cs[i].outcomes)
  }

  lemma {:induction false} MergedPlain(base: Context, branches: seq<Context>, which: Plain)
    ensures PlainOf(MergeAll(base, branches), which)
            == PlainOf(base, which) + Additions(PlainLists(branches, which), |PlainOf(base, which)|)
  {
    if branches != [] {
      var front := branches[..|branches| - 1];
      MergedPlain(base, front, which);
      MergeAddsPlain(base, branches, which);
      AdditionsOfLast(branches, which, |PlainOf(base, which)|);
      Regroup(PlainOf(base, which), Additions(PlainLists(front, which), |PlainOf(base, which)|),
              Suffix(PlainOf(branches[|branches| - 1], which), |PlainOf(base, which)|));
    }
  }

  lemma Regroup(a: seq<string>, b: seq<string>, c: seq<string>)
    ensures a + b + c == a + (b + c)
  {
  }

  lemma MergeAddsPlain(base: Context, branches: seq<Context>, which: Plain)
    requires branches != []
    ensures PlainOf(MergeAll(base, branches), which)
            == PlainOf(MergeAll(base, branches[..|branches| - 1]), which)
               + Suffix(PlainOf(branches[|branches| - 1], which), |PlainOf(base, which)|)
  {
  }

  lemma AdditionsOfLast(branches: seq<Context>, which: Plain, n: nat)
    requires branches != []
    ensures Additions(PlainLists(branches, which), n)
            == Additions(PlainLists(branches[..|branches| - 1], which), n) + Suffix(PlainOf(branches[|branches| - 1], which), n)
  {
    var lists := PlainLists(branches, which);
    assert lists[..|lists| - 1] == PlainLists(branches[..|branches| - 1], which);
  }

  lemma {:induction false} MergedAttempts(base: Context, branches: seq<Context>)
    ensures MergeAll(base, branches).attempts == base.attempts + Additions(AttemptLists(branches), |base.attempts|)
  {
    if branches != [] {
      var front := branches[..|branches| - 1];
      MergedAttempts(base, front);
      var lists := AttemptLists(branches);
      assert lists[..|lists| - 1] == AttemptLists(front);
    }
  }

  lemma {:induction false} MergedOutcomes(base: Context, branches: seq<Context>)
    ensures MergeAll(base, branches).outcomes == base.outcomes + Additions(OutcomeLists(branches), |base.outcomes|)
  {
    if branches != [] {
      var front := branches[..|branches| - 1];
      MergedOutcomes(base, front);
      var lists := OutcomeLists(branches);
      assert lists[..|lists| - 1] == OutcomeLists(front);
    }
  }

  lemma {:induction false} MergedAccepted(base: Context, branches: seq<Context>)
    ensures MergeAll(base, branches).accepted <==> base.accepted || exists i :: 0 <= i < |branches| && branches[i].accepted
    ensures MergeAll(base, branches).budget == base.budget
  {
    if branches != [] {
      var front := branches[..|branches| - 1];
      MergedAccepted(base, front);
      assert forall i :: 0 <= i < |front| ==> front[i] == branches[i];
    }
  }

  /** The report of the last branch that has one, or else the baseline's. */
  ghost predicate LatestReport(base: Context, branches: seq<Context>, report: Option<string>) {
    || (report == base.crawlReport && forall i :: 0 <= i < |branches| ==> branches[i].crawlReport.None?)
    || exists i :: && 0 <= i < |branches| && branches[i].crawlReport.Some? && report == branches[i].crawlReport
                   && forall j :: i < j < |branches| ==> branches[j].crawlReport.None?
  }

  lemma {:induction false} MergedReport(base: Context, branches: seq<Context>)
    ensures LatestReport(base, branches, MergeAll(base, branches).crawlReport)
    decreases |branches|
  {
    if branches != [] {
      var front := branches[..|branches| - 1];
      MergedReport(base, front);
      MergeAddsReport(base, branches);
      assert branches == front + [branches[|branches| - 1]];
      LatestOfLast(base, front, branches[|branches| - 1], MergeAll(base, front).crawlReport);
    }
  }

  lemma MergeAddsReport(base: Context, branches: seq<Context>)
    requires branches != []
    ensures var last := branches[|branches| - 1].crawlReport;
            MergeAll(base, branches).crawlReport
            == if last.Some? then last else MergeAll(base, branches[..|branches| - 1]).crawlReport
  {
  }

  lemma LatestOfLast(base: Context, front: seq<Context>, last: Context, report: Option<string>)
    requires LatestReport(base, front, report)
    ensures LatestReport(base, front + [last], if last.crawlReport.Some? then last.crawlReport else report)
  {
    var all := front + [last];
    assert all[|front|] == last;
    if last.crawlReport.None? {
      if i :| && 0 <= i < |front| && front[i].crawlReport.Some? && report == front[i].crawlReport
              && forall j :: i < j < |front| ==> front[j].crawlReport.None? {
        assert all[i] == front[i];
      }
    }
  }

  /** The merged lists are the baseline followed by each branch's additions in batch order. */
  lemma MergeIsBatchOrder(base: Context, branches: seq<Context>)
    ensures var m := MergeAll(base, branches);
            && (forall which: Plain :: PlainOf(m, which)
                  == PlainOf(base, which) + Additions(PlainLists(branches, which), |PlainOf(base, which)|))
            && m.attempts == base.attempts + Additions(AttemptLists(branches), |base.attempts|)
            && m.outcomes == base.outcomes + Additions(OutcomeLists(branches), |base.outcomes|)
            && (m.accepted <==> base.accepted || exists i :: 0 <= i < |branches| && branches[i].accepted)
            && m.budget == base.budget
            && LatestReport(base, branches, m.crawlReport)
  {
    MergedReport(base, branches);
    forall which: Plain
      ensures PlainOf(MergeAll(base, branches), which)
              == PlainOf(base, which) + Additions(PlainLists(branches, which), |PlainOf(base, which)|)
    {
      MergedPlain(base, branches, which);
    }
    MergedAttempts(base, branches);
    MergedOutcomes(base, branches);
    MergedAccepted(base, branches);
  }

  // ---- Conservation ------------------------------------------------------------------------

  predicate SameUse(a: Attempt, b: Attempt) {
    a.consumed == b.consumed && a.spent == b.spent
  }

  /** The attempts of `a` are still there, with the consumption they had. */
  ghost predicate KeepsUse(a: seq<Attempt>, b: seq<Attempt>) {
    |a| <= |b| && forall i :: 0 <= i < |a| ==> SameUse(a[i], b[i])
  }

  lemma {:induction false} SameUseConsumed(a: seq<Attempt>, b: seq<Attempt>, f: IntField)
    requires |a| == |b| && KeepsUse(a, b)
    ensures Consumed(a, f) == Consumed(b, f)
  {
    if a != [] {
      SameUseConsumed(a[..|a| - 1], b[..|b| - 1], f);
      assert SameUse(a[|a| - 1], b[|b| - 1]);
    }
  }

  lemma {:induction false} SameUseSpent(a: seq<Attempt>, b: seq<Attempt>, f: RealField)
    requires |a| == |b| && KeepsUse(a, b)
    ensures ConsumedReal(a, f) == ConsumedReal(b, f)
  {
    if a != [] {
      SameUseSpent(a[..|a| - 1], b[..|b| - 1], f);
      assert SameUse(a[|a| - 1], b[|b| - 1]);
    }
  }

  /** The consumption of a branch is that of its baseline and that of what it added. */
  lemma SplitConsumption(base: seq<Attempt>, attempts: seq<Attempt>, f: IntField)
    requires KeepsUse(base, attempts)
    ensures Consumed(attempts, f) == Consumed(base, f) + Consumed(attempts[|base|..], f)
  {
    assert attempts == attempts[..|base|] + attempts[|base|..];
    ConsumedConcat(attempts[..|base|], attempts[|base|..], f);
    SameUseConsumed(base, attempts[..|base|], f);
  }

  lemma SplitSpending(base: seq<Attempt>, attempts: seq<Attempt>, f: RealField)
    requires KeepsUse(base, attempts)
    ensures ConsumedReal(attempts, f) == ConsumedReal(base, f) + ConsumedReal(attempts[|base|..], f)
  {
    assert attempts == attempts[..|base|] + attempts[|base|..];
    ConsumedRealConcat(attempts[..|base|], attempts[|base|..], f);
    SameUseSpent(base, attempts[..|base|], f);
  }

  ghost predicate FitsFields(attempts: seq<Attempt>, budget: Budget) {
    && (forall f: IntField :: Consumed(attempts, f) <= budget.Limit(f))
    && (forall f: RealField :: ConsumedReal(attempts, f) <= budget.Ceiling(f))
  }

  /** A branch kept the attempts it started from and stayed within the fields of its slice. */
  ghost predicate WithinSlice(base: Context, branch: Context, budget: Budget) {
    KeepsUse(base.attempts, branch.attempts) && FitsFields(branch.attempts, budget)
  }

  /** What the first `n` branches consumed beyond the baseline. */
  function SumAdded(base: Context, branches: seq<Context>, f: IntField, n: nat): int
    requires n <= |branches|
  {
    if n == 0 then 0
    else SumAdded(base, branches, f, n - 1) + Consumed(branches[n - 1].attempts, f) - Consumed(base.attempts, f)
  }

  function SumAddedReal(base: Context, branches: seq<Context>, f: RealField, n: nat): real
    requires n <= |branches|
  {
    if n == 0 then 0.0
    else SumAddedReal(base, branches, f, n - 1) + ConsumedReal(branches[n - 1].attempts, f) - ConsumedReal(base.attempts, f)
  }

  ghost predicate AllKeepUse(base: Context, branches: seq<Context>) {
    forall i :: 0 <= i < |branches| ==> KeepsUse(base.attempts, branches[i].attempts)
  }

  lemma {:induction false} MergedUse(base: Context, branches: seq<Context>, f: IntField, n: nat)
    requires n <= |branches| && AllKeepUse(base, branches)
    ensures Consumed(MergeAll(base, branches[..n]).attempts, f) == Consumed(base.attempts, f) + SumAdded(base, branches, f, n)
    decreases n
  {
    if n > 0 {
      MergedUse(base, branches, f, n - 1);
      MergeNext(base, branches, n - 1);
      var b := branches[n - 1];
      SplitConsumption(base.attempts, b.attempts, f);
      ConsumedConcat(MergeAll(base, branches[..n - 1]).attempts, b.attempts[|base.attempts|..], f);
    }
  }

  lemma {:induction false} MergedUseReal(base: Context, branches: seq<Context>, f: RealField, n: nat)
    requires n <= |branches| && AllKeepUse(base, branches)
    ensures ConsumedReal(MergeAll(base, branches[..n]).attempts, f)
            == ConsumedReal(base.attempts, f) + SumAddedReal(base, branches, f, n)
    decreases n
  {
    if n > 0 {
      MergedUseReal(base, branches, f, n - 1);
      MergeNext(base, branches, n - 1);
      var b := branches[n - 1];
      SplitSpending(base.attempts, b.attempts, f);
      ConsumedRealConcat(MergeAll(base, branches[..n - 1]).attempts, b.attempts[|base.attempts|..], f);
    }
  }

  lemma MergeNext(base: Context, branches: seq<Context>, i: nat)
    requires i < |branches| && KeepsUse(base.attempts, branches[i].attempts)
    ensures MergeAll(base, branches[..i + 1]).attempts
            == MergeAll(base, branches[..i]).attempts + branches[i].attempts[|base.attempts|..]
  {
    assert branches[..i + 1][..i] == branches[..i];
  }

  /** Merging adds up exactly what each branch consumed, in every field. */
  lemma MergeConservesUse(base: Context, branches: seq<Context>)
    requires AllKeepUse(base, branches)
    ensures var m := MergeAll(base, branches);
            && (forall f: IntField :: Consumed(m.attempts, f) == Consumed(base.attempts, f) + SumAdded(base, branches, f, |branches|))
            && (forall f: RealField :: ConsumedReal(m.attempts, f)
                  == ConsumedReal(base.attempts, f) + SumAddedReal(base, branches, f, |branches|))
  {
    assert branches[..|branches|] == branches;
    forall f: IntField
      ensures Consumed(MergeAll(base, branches).attempts, f) == Consumed(base.attempts, f) + SumAdded(base, branches, f, |branches|)
    {
      MergedUse(base, branches, f, |branches|);
    }
    forall f: RealField
      ensures ConsumedReal(MergeAll(base, branches).attempts, f)
              == ConsumedReal(base.attempts, f) + SumAddedReal(base, branches, f, |branches|)
    {
      MergedUseReal(base, branches, f, |branches|);
    }
  }

  /** Branches within their slices add at most what the slices allow. */
  lemma {:induction false} AddedIsAllowed(base: Context, branches: seq<Context>, budgets: seq<Budget>, f: IntField, n: nat)
    requires |branches| == |budgets| && n <= |branches|
    requires forall i :: 0 <= i < |branches| ==> WithinSlice(base, branches[i], budgets[i])
    ensures SumAdded(base, branches, f, n) <= SumAllowances(base, budgets, f, n)
    decreases n
  {
    if n > 0 {
      AddedIsAllowed(base, branches, budgets, f, n - 1);
      assert WithinSlice(base, branches[n - 1], budgets[n - 1]);
    }
  }

  lemma {:induction false} MergedCount(base: Context, branches: seq<Context>, budgets: seq<Budget>, extras: seq<nat>, n: nat)
    requires |branches| == |budgets| && n <= |branches|
    requires |extras| == |branches|
    requires forall i :: 0 <= i < |branches| ==> |base.attempts| <= |branches[i].attempts| <= budgets[i].attempts + extras[i]
    ensures |MergeAll(base, branches[..n]).attempts|
            <= |base.attempts| + SumAttemptAllowances(base, budgets, n) + Sum(extras[..n])
  {
    if n > 0 {
      MergedCount(base, branches, budgets, extras, n - 1);
      assert branches[..n][..n - 1] == branches[..n - 1];
      assert extras[..n][..n - 1] == extras[..n - 1];
    }
  }

  function Sum(extras: seq<nat>): nat {
    if extras == [] then 0 else Sum(extras[..|extras| - 1]) + extras[|extras| - 1]
  }

  /** `n` times the same amount. */
  function Repeat(amount: real, n: nat): real {
    if n == 0 then 0.0 else Repeat(amount, n - 1) + amount
  }

  lemma RepeatIsProduct(amount: real, n: nat)
    ensures Repeat(amount, n) == (n as real) * amount
  {
  }

  lemma EvenShares(remaining: real, n: nat)
    requires n > 0
    ensures Repeat(remaining / (n as real), n) == remaining
  {
    RepeatIsProduct(remaining / (n as real), n);
  }

  lemma {:induction false} AddedIsShared(base: Context, branches: seq<Context>, f: RealField, extra: real, n: nat)
    requires n <= |branches|
    requires forall i :: 0 <= i < |branches| ==>
               ConsumedReal(branches[i].attempts, f) <= ConsumedReal(base.attempts, f) + extra
    ensures SumAddedReal(base, branches, f, n) <= Repeat(extra, n)
    decreases n
  {
    if n > 0 {
      AddedIsShared(base, branches, f, extra, n - 1);
    }
  }

  ghost predicate AllWithin(base: Context, branches: seq<Context>, budgets: seq<Budget>) {
    && |branches| == |budgets| > 0 && IsPartition(base, budgets)
    && (forall i :: 0 <= i < |branches| ==> WithinSlice(base, branches[i], budgets[i]))
  }

  lemma MergeKeepsLimit(base: Context, branches: seq<Context>, budgets: seq<Budget>, f: IntField)
    requires AllWithin(base, branches, budgets) && Consumed(base.attempts, f) <= base.budget.Limit(f)
    ensures Consumed(MergeAll(base, branches).attempts, f) <= base.budget.Limit(f)
  {
    var n := |branches|;
    assert branches[..n] == branches;
    MergedUse(base, branches, f, n);
    AddedIsAllowed(base, branches, budgets, f, n);
    AllowancesAreShares(base, budgets, f, n);
    SharesPartition(Left(base.budget.Limit(f), Consumed(base.attempts, f)), n);
  }

  /** As many attempts as the budget has, and what the branches added beyond their shares. */
  lemma MergeKeepsAttempts(base: Context, branches: seq<Context>, budgets: seq<Budget>, extras: seq<nat>)
    requires |branches| == |budgets| == |extras| > 0 && IsPartition(base, budgets)
    requires |base.attempts| <= base.budget.attempts
    requires forall i :: 0 <= i < |branches| ==> |base.attempts| <= |branches[i].attempts| <= budgets[i].attempts + extras[i]
    ensures |MergeAll(base, branches).attempts| <= base.budget.attempts + Sum(extras)
  {
    var n := |branches|;
    assert branches[..n] == branches && extras[..n] == extras;
    MergedCount(base, branches, budgets, extras, n);
    AttemptAllowancesAreShares(base, budgets, n);
    SharesPartition(Left(base.budget.attempts, |base.attempts|), n);
  }

  lemma MergeKeepsCeiling(base: Context, branches: seq<Context>, budgets: seq<Budget>, f: RealField)
    requires AllWithin(base, branches, budgets) && ConsumedReal(base.attempts, f) <= base.budget.Ceiling(f)
    ensures ConsumedReal(MergeAll(base, branches).attempts, f) <= base.budget.Ceiling(f)
  {
    var n := |branches|;
    assert branches[..n] == branches;
    var remaining := base.budget.Ceiling(f) - ConsumedReal(base.attempts, f);
    var share := remaining / (n as real);
    forall i | 0 <= i < n
      ensures KeepsUse(base.attempts, branches[i].attempts)
      ensures ConsumedReal(branches[i].attempts, f) <= ConsumedReal(base.attempts, f) + share
    {
      assert WithinSlice(base, branches[i], budgets[i]);
      assert budgets[i].Ceiling(f) == SliceReal(base.attempts, base.budget, f, n);
    }
    MergedUseReal(base, branches, f, n);
    AddedIsShared(base, branches, f, share, n);
    EvenShares(remaining, n);
  }

  /**
   Budget conservation: branches that respect their slices, merged back, keep the run within every
   ceiling it was within before the batch.
   */
  lemma MergeKeepsCeilings(base: Context, branches: seq<Context>, budgets: seq<Budget>)
    requires AllWithin(base, branches, budgets)
    ensures var m := MergeAll(base, branches);
            && (forall f: IntField :: Consumed(base.attempts, f) <= base.budget.Limit(f) ==>
                  Consumed(m.attempts, f) <= base.budget.Limit(f))
            && (forall f: RealField :: ConsumedReal(base.attempts, f) <= base.budget.Ceiling(f) ==>
                  ConsumedReal(m.attempts, f) <= base.budget.Ceiling(f))
  {
    forall f: IntField | Consumed(base.attempts, f) <= base.budget.Limit(f)
      ensures Consumed(MergeAll(base, branches).attempts, f) <= base.budget.Limit(f)
    {
      MergeKeepsLimit(base, branches, budgets, f);
    }
    forall f: RealField | ConsumedReal(base.attempts, f) <= base.budget.Ceiling(f)
      ensures ConsumedReal(MergeAll(base, branches).attempts, f) <= base.budget.Ceiling(f)
    {
      MergeKeepsCeiling(base, branches, budgets, f);
    }
  }

  // ---- Spending over time ------------------------------------------------------------------

  /** From `before` to `after` nothing consumed was forgotten, and no field left its budget. */
  ghost predicate Spends(before: Context, after: Context) {
    && after.budget == before.budget
    && KeepsUse(before.attempts, after.attempts)
    && (FitsFields(before.attempts, before.budget) ==> FitsFields(after.attempts, after.budget))
  }

  /** The same, and no more attempts than the budget has, or than there were, but for `extra` more. */
  ghost predicate SpendsUpTo(before: Context, after: Context, extra: nat) {
    && Spends(before, after)
    && (|after.attempts| <= before.budget.attempts + extra || |after.attempts| <= |before.attempts| + extra)
  }

  lemma SpendsNext(a: Context, b: Context, c: Context, m: nat, n: nat)
    requires SpendsUpTo(a, b, m) && SpendsUpTo(b, c, n)
    ensures SpendsUpTo(a, c, m + n)
  {
    SpendsTransitive(a, b, c);
  }

  lemma SpendsTransitive(a: Context, b: Context, c: Context)
    requires Spends(a, b) && Spends(b, c)
    ensures Spends(a, c)
  {
    forall i | 0 <= i < |a.attempts| ensures SameUse(a.attempts[i], c.attempts[i]) {
      assert SameUse(a.attempts[i], b.attempts[i]) && SameUse(b.attempts[i], c.attempts[i]);
    }
  }

  lemma SpendsNothing(before: Context, after: Context)
    requires after.budget == before.budget && after.attempts == before.attempts
    ensures SpendsUpTo(before, after, 0)
  {
  }

  /** Attempts that are only relabelled, or added without consumption, spend nothing. */
  lemma RelabelSpends(before: Context, after: Context, n: nat)
    requires after.budget == before.budget && n == |before.attempts| && KeepsUse(before.attempts, after.attempts)
    requires forall i :: n <= i < |after.attempts| ==> after.attempts[i].consumed == map[] && after.attempts[i].spent == map[]
    ensures Spends(before, after)
  {
    forall f: IntField ensures Consumed(after.attempts, f) == Consumed(before.attempts, f) {
      SplitConsumption(before.attempts, after.attempts, f);
      FreeAttempts(after.attempts[n..], f);
    }
    forall f: RealField ensures ConsumedReal(after.attempts, f) == ConsumedReal(before.attempts, f) {
      SplitSpending(before.attempts, after.attempts, f);
      FreeSpending(after.attempts[n..], f);
    }
  }

  lemma {:induction false} FreeAttempts(attempts: seq<Attempt>, f: IntField)
    requires forall i :: 0 <= i < |attempts| ==> attempts[i].consumed == map[]
    ensures Consumed(attempts, f) == 0
  {
    if attempts != [] {
      FreeAttempts(attempts[..|attempts| - 1], f);
    }
  }

  lemma {:induction false} FreeSpending(attempts: seq<Attempt>, f: RealField)
    requires forall i :: 0 <= i < |attempts| ==> attempts[i].spent == map[]
    ensures ConsumedReal(attempts, f) == 0.0
  {
    if attempts != [] {
      FreeSpending(attempts[..|attempts| - 1], f);
    }
  }

  /** A branch starts within its slice, whatever the run has consumed. */
  lemma BranchFits(ctx: Context, count: nat, i: nat)
    requires i < count
    ensures FitsFields(ctx.attempts, BranchBudget(ctx, count, i))
  {
    forall f: IntField ensures Consumed(ctx.attempts, f) <= BranchBudget(ctx, count, i).Limit(f) {
      assert BranchBudget(ctx, count, i).Limit(f) == Slice(ctx.attempts, ctx.budget, f, count, i);
    }
    forall f: RealField ensures ConsumedReal(ctx.attempts, f) <= BranchBudget(ctx, count, i).Ceiling(f) {
      assert BranchBudget(ctx, count, i).Ceiling(f) == SliceReal(ctx.attempts, ctx.budget, f, count);
      SliceRealFits(ctx.attempts, ctx.budget, f, count);
    }
  }

  lemma SliceRealFits(attempts: seq<Attempt>, budget: Budget, f: RealField, count: nat)
    requires count > 0
    ensures ConsumedReal(attempts, f) <= SliceReal(attempts, budget, f, count)
  {
  }

  /** A batch whose branches spend within their own slices spends within the run's budget. */
  lemma MergeSpends(base: Context, branches: seq<Context>, budgets: seq<Budget>)
    requires |branches| == |budgets| > 0 && IsPartition(base, budgets)
    requires forall i :: 0 <= i < |branches| ==> Spends(base.(budget := budgets[i]), branches[i])
    ensures Spends(base, MergeAll(base, branches))
  {
    var n := |branches|;
    forall i | 0 <= i < n ensures WithinSlice(base, branches[i], budgets[i]) {
      assert Spends(base.(budget := budgets[i]), branches[i]);
      BranchFits(base, n, i);
    }
    MergeKeepsCeilings(base, branches, budgets);
    MergedAttempts(base, branches);
    MergedAccepted(base, branches);
  }

  // ---- The mutable context -----------------------------------------------------------------

  datatype BudgetError = NegativeAmount | BudgetExhausted | NoSuchAttempt | UnknownField

  /** An amount of one budget field, by whole units or by measure, or of something that is not one. */
  datatype Charge =
    | Whole(f: IntField, n: int)
    | Measured(g: RealField, x: real)
    | Shared(h: SharedField, y: real)
    | Unknown(name: string, amount: real)
  {
    predicate Negative() {
      match this
      case Whole(_, n) => n < 0
      case Measured(_, x) => x < 0.0
      case Shared(_, y) => y < 0.0
      case Unknown(_, amount) => amount < 0.0
    }
  }

  /** Recording looks at the field first, and then at the sign. */
  function Fault(c: Charge): Option<BudgetError> {
    if c.Unknown? then Some(UnknownField) else if c.Negative() then Some(NegativeAmount) else None
  }

  function Charged(charges: seq<Charge>, f: IntField): int {
    if charges == [] then 0
    else
      var last := charges[|charges| - 1];
      Charged(charges[..|charges| - 1], f) + (if last.Whole? && last.f == f then last.n else 0)
  }

  function ChargedReal(charges: seq<Charge>, g: RealField): real {
    if charges == [] then 0.0
    else
      var last := charges[|charges| - 1];
      ChargedReal(charges[..|charges| - 1], g) + (if last.Measured? && last.g == g then last.x else 0.0)
  }

  function ChargedShared(charges: seq<Charge>, h: SharedField): real {
    if charges == [] then 0.0
    else
      var last := charges[|charges| - 1];
      ChargedShared(charges[..|charges| - 1], h) + (if last.Shared? && last.h == h then last.y else 0.0)
  }

  function Charge1(a: Attempt, c: Charge): Attempt
    requires Fault(c).None?
  {
    match c
    case Whole(f, n) => a.(consumed := a.consumed[f := Used(a, f) + n])
    case Measured(g, x) => a.(spent := a.spent[g := Spent(a, g) + x])
    case Shared(h, y) => a.(other := a.other[h := Other(a, h) + y])
  }

  lemma ConsumedUpdate(attempts: seq<Attempt>, i: nat, a: Attempt, f: IntField)
    requires i < |attempts|
    ensures Consumed(attempts[i := a], f) == Consumed(attempts, f) - Used(attempts[i], f) + Used(a, f)
  {
    var before, after := attempts[..i], attempts[i + 1..];
    assert attempts == before + [attempts[i]] + after;
    assert attempts[i := a] == before + [a] + after;
    ConsumedConcat(before + [attempts[i]], after, f);
    ConsumedConcat(before, [attempts[i]], f);
    ConsumedConcat(before + [a], after, f);
    ConsumedConcat(before, [a], f);
    SingleConsumed(attempts[i], f);
    SingleConsumed(a, f);
  }

  lemma SpentUpdate(attempts: seq<Attempt>, i: nat, a: Attempt, g: RealField)
    requires i < |attempts|
    ensures ConsumedReal(attempts[i := a], g) == ConsumedReal(attempts, g) - Spent(attempts[i], g) + Spent(a, g)
  {
    var before, after := attempts[..i], attempts[i + 1..];
    assert attempts == before + [attempts[i]] + after;
    assert attempts[i := a] == before + [a] + after;
    ConsumedRealConcat(before + [attempts[i]], after, g);
    ConsumedRealConcat(before, [attempts[i]], g);
    ConsumedRealConcat(before + [a], after, g);
    ConsumedRealConcat(before, [a], g);
    assert [attempts[i]][..0] == [] && [a][..0] == [];
  }

  lemma {:induction false} SharedUpdate(attempts: seq<Attempt>, i: nat, a: Attempt, h: SharedField)
    requires i < |attempts|
    ensures ConsumedShared(attempts[i := a], h) == ConsumedShared(attempts, h) - Other(attempts[i], h) + Other(a, h)
  {
    var front, last := attempts[..|attempts| - 1], |attempts| - 1;
    if i < last {
      assert attempts[i := a][..last] == front[i := a];
      SharedUpdate(front, i, a, h);
    } else {
      assert attempts[i := a][..last] == front;
    }
  }

  lemma SingleConsumed(a: Attempt, f: IntField)
    ensures Consumed([a], f) == Used(a, f)
  {
    assert [a][..0] == [];
  }

  class ExecutionContext {
    const budget: Budget
    var resources: seq<string>
    var artifacts: seq<string>
    var attempts: seq<Attempt>
    var outcomes: seq<Outcome>
    var decisions: seq<string>
    var diagnostics: seq<string>
    var events: seq<string>
    var accepted: bool
    var crawlReport: Option<string>

    ghost function Value(): Context
      reads this
    {
      Context(budget, resources, artifacts, attempts, outcomes, decisions, diagnostics, events, accepted, crawlReport)
    }

    /** A context holding the given lists. */
    constructor (value: Context)
      ensures Value() == value
    {
      budget, resources, artifacts, attempts := value.budget, value.resources, value.artifacts, value.attempts;
      outcomes, decisions, diagnostics, events := value.outcomes, value.decisions, value.diagnostics, value.events;
      accepted, crawlReport := value.accepted, value.crawlReport;
    }

    /** `require_budget`: refuse an amount beyond the ceiling minus what was consumed. */
    method RequireBudget(c: Charge) returns (r: Result<(), BudgetError>)
      ensures c.Negative() ==> r == Err(NegativeAmount)
      ensures !c.Negative() && c.Unknown? ==> r == Err(UnknownField)
      ensures c.Whole? && c.n >= 0 ==>
                r == if c.n > 0 && Consumed(attempts, c.f) + c.n > budget.Limit(c.f) then Err(BudgetExhausted) else Ok(())
      ensures c.Measured? && c.x >= 0.0 ==>
                r == if c.x > 0.0 && ConsumedReal(attempts, c.g) + c.x > budget.Ceiling(c.g) then Err(BudgetExhausted) else Ok(())
      ensures c.Shared? && c.y >= 0.0 ==>
                r == if c.y > 0.0 && ConsumedShared(attempts, c.h) + c.y > budget.Shared(c.h) then Err(BudgetExhausted) else Ok(())
    {
      if c.Negative() {
        return Err(NegativeAmount);
      }
      match c {
        case Unknown(_, _) =>
          return Err(UnknownField);
        case Whole(f, n) =>
          var remaining := Left(budget.Limit(f), Consumed(attempts, f));
          if n > remaining {
            return Err(BudgetExhausted);
          }
        case Measured(g, x) =>
          var remaining := budget.Ceiling(g) - ConsumedReal(attempts, g);
          if x > (if remaining >= 0.0 then remaining else 0.0) {
            return Err(BudgetExhausted);
          }
        case Shared(h, y) =>
          var remaining := budget.Shared(h) - ConsumedShared(attempts, h);
          if y > (if remaining >= 0.0 then remaining else 0.0) {
            return Err(BudgetExhausted);
          }
      }
      return Ok(());
    }

    /** `record_attempt_consumption`: add to one attempt, and to nothing else, or fail on the first fault. */
    method RecordConsumption(index: int, charges: seq<Charge>) returns (r: Result<(), BudgetError>)
      modifies this`attempts
      ensures r.Ok? <==> 0 <= index < |old(attempts)| && forall c :: c in charges ==> Fault(c).None?
      ensures r.Err? ==> attempts == old(attempts)
      ensures r.Err? ==> if !(0 <= index < |old(attempts)|) then r.error == NoSuchAttempt
                         else exists i :: 0 <= i < |charges| && Fault(charges[i]) == Some(r.error)
                                          && forall j :: 0 <= j < i ==> Fault(charges[j]).None?
      ensures r.Ok? ==> |attempts| == |old(attempts)|
      ensures r.Ok? ==> forall i :: 0 <= i < |attempts| && i != index ==> attempts[i] == old(attempts)[i]
      ensures r.Ok? ==> forall f: IntField :: Consumed(attempts, f) == Consumed(old(attempts), f) + Charged(charges, f)
      ensures r.Ok? ==> forall g: RealField ::
                ConsumedReal(attempts, g) == ConsumedReal(old(attempts), g) + ChargedReal(charges, g)
      ensures r.Ok? ==> forall h: SharedField ::
                ConsumedShared(attempts, h) == ConsumedShared(old(attempts), h) + ChargedShared(charges, h)
    {
      if !(0 <= index < |attempts|) {
        return Err(NoSuchAttempt);
      }
      var attempt := attempts[index];
      var updated := attempt;
      for i := 0 to |charges|
        invariant attempts == old(attempts)
        invariant forall j :: 0 <= j < i ==> Fault(charges[j]).None?
        invariant forall f: IntField :: Used(updated, f) == Used(attempt, f) + Charged(charges[..i], f)
        invariant forall g: RealField :: Spent(updated, g) == Spent(attempt, g) + ChargedReal(charges[..i], g)
        invariant forall h: SharedField :: Other(updated, h) == Other(attempt, h) + ChargedShared(charges[..i], h)
      {
        if Fault(charges[i]).Some? {
          assert charges[i] in charges;
          return Err(Fault(charges[i]).value);
        }
        assert charges[..i + 1][..i] == charges[..i];
        updated := Charge1(updated, charges[i]);
      }
      assert charges[..|charges|] == charges;
      attempts := attempts[index := updated];
      forall f: IntField ensures Consumed(attempts, f) == Consumed(old(attempts), f) + Charged(charges, f) {
        ConsumedUpdate(old(attempts), index, updated, f);
      }
      forall g: RealField ensures ConsumedReal(attempts, g) == ConsumedReal(old(attempts), g) + ChargedReal(charges, g) {
        SpentUpdate(old(attempts), index, updated, g);
      }
      forall h: SharedField ensures ConsumedShared(attempts, h) == ConsumedShared(old(attempts), h) + ChargedShared(charges, h) {
        SharedUpdate(old(attempts), index, updated, h);
      }
      return Ok(());
    }

    /** `_merge_parallel_context`. */
    method MergeParallelContext(branch: ExecutionContext, ghost base: Context,
                                resourceCount: nat, artifactCount: nat, attemptCount: nat, outcomeCount: nat,
                                decisionCount: nat, diagnosticCount: nat, eventCount: nat)
      requires branch != this
      requires resourceCount == |base.resources| && artifactCount == |base.artifacts| && attemptCount == |base.attempts|
      requires outcomeCount == |base.outcomes| && decisionCount == |base.decisions|
      requires diagnosticCount == |base.diagnostics| && eventCount == |base.events|
      modifies this
      ensures Value() == MergeOne(old(Value()), branch.Value(), base)
    {
      resources := resources + Suffix(branch.resources, resourceCount);
      artifacts := artifacts + Suffix(branch.artifacts, artifactCount);
      attempts := attempts + Suffix(branch.attempts, attemptCount);
      outcomes := outcomes + Suffix(branch.outcomes, outcomeCount);
      decisions := decisions + Suffix(branch.decisions, decisionCount);
      diagnostics := diagnostics + Suffix(branch.diagnostics, diagnosticCount);
      events := events + Suffix(branch.events, eventCount);
      accepted := accepted || branch.accepted;
      if branch.crawlReport.Some? {
        crawlReport := branch.crawlReport;
      }
    }
  }
}
