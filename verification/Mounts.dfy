/**
 Read-only mount roots of an isolated worker (`src/fetech/worker_isolation.py`): the sorted sweep that
 reduces the candidate roots, and the mount operations Bubblewrap applies in argument order.
 Paths are resolved and absolute: the sequence of their names, with `/` the empty one.
 */
module Mounts {
  import opened Common

  type Path = seq<string>

  const TMP: Path := ["tmp"]
  const PROC: Path := ["proc"]
  const DEV: Path := ["dev"]

  datatype MountError = RootDirectory | DuplicateRoot | ScratchRoot | ExposesData

  predicate Comparable(a: Path, b: Path) {
    a <= b || b <= a
  }

  lemma PrefixesCompare(a: Path, b: Path, p: Path)
    requires a <= p && b <= p
    ensures Comparable(a, b)
  {
    assert a == p[..|a|] && b == p[..|b|];
  }

  predicate Antichain(roots: seq<Path>) {
    forall i, j :: 0 <= i < |roots| && 0 <= j < |roots| && i != j ==> !(roots[i] <= roots[j])
  }

  // ---- Explicit paths ----------------------------------------------------------------------

  /** `_validate_read_only_paths`. */
  method ValidatePaths(paths: seq<Path>) returns (r: Result<(), MountError>)
    ensures r.Ok? <==> && [] !in paths && ["tmp"] !in paths
                       && forall i, j :: 0 <= i < j < |paths| ==> paths[i] != paths[j]
  {
    var normalized: set<Path> := {};
    for i := 0 to |paths|
      invariant normalized == set p | p in paths[..i]
      invariant [] !in normalized && TMP !in normalized
      invariant forall k, j :: 0 <= k < j < i ==> paths[k] != paths[j]
    {
      if paths[i] == [] || paths[i] == TMP {
        return Err(RootDirectory);
      }
      if paths[i] in normalized {
        return Err(DuplicateRoot);
      }
      normalized := normalized + {paths[i]};
      assert paths[..i + 1] == paths[..i] + [paths[i]];
    }
    assert paths[..|paths|] == paths;
    return Ok(());
  }

  // ---- The sweep ---------------------------------------------------------------------------

  predicate Shortlex(order: seq<Path>) {
    && (forall i, j :: 0 <= i < j < |order| ==> |order[i]| <= |order[j]|)
    && (forall i, j :: 0 <= i < j < |order| ==> order[i] != order[j])
  }

  lemma FirstIsShortest(order: seq<Path>)
    requires Shortlex(order) && order != []
    ensures Shortlex(order[1..])
    ensures forall q :: q in order <==> q == order[0] || q in order[1..]
    ensures forall q :: q in order[1..] ==> q != order[0] && |order[0]| <= |q|
  {
    forall q | q in order[1..] ensures q != order[0] && |order[0]| <= |q| {
      var k :| 0 <= k < |order[1..]| && order[1..][k] == q;
      assert order[k + 1] == q;
    }
  }

  function Insert(order: seq<Path>, p: Path): (r: seq<Path>)
    requires Shortlex(order)
    ensures Shortlex(r)
    ensures forall q :: q in r <==> q in order || q == p
  {
    if order == [] then [p]
    else if order[0] == p then order
    else if |p| < |order[0]| then [p] + order
    else
      var rest := Insert(order[1..], p);
      FirstIsShortest(order);
      [order[0]] + rest
  }

  /** The distinct candidates by number of parts.  How ties are broken does not matter to the sweep. */
  function ByParts(candidates: seq<Path>): (r: seq<Path>)
    ensures Shortlex(r)
    ensures forall q :: q in r <==> q in candidates
  {
    if candidates == [] then [] else
      assert candidates == candidates[..|candidates| - 1] + [candidates[|candidates| - 1]];
      Insert(ByParts(candidates[..|candidates| - 1]), candidates[|candidates| - 1])
  }

  predicate Clear(p: Path, dataDir: Option<Path>) {
    dataDir.Some? ==> !Comparable(p, dataDir.value)
  }

  predicate Under(root: Path, p: Path) {
    root <= p
  }

  ghost predicate Least(r: Path, candidates: seq<Path>) {
    r in candidates && forall c :: c in candidates && Under(c, r) ==> c == r
  }

  ghost predicate HasRoot(c: Path, roots: seq<Path>) {
    exists r :: r in roots && Under(r, c)
  }

  /** The roots are the least candidates, an antichain that covers every candidate. */
  ghost predicate MinimalCover(roots: seq<Path>, candidates: seq<Path>) {
    && Antichain(roots)
    && (forall r :: r in roots <==> Least(r, candidates))
    && (forall c :: c in candidates ==> HasRoot(c, roots))
  }

  /** Each candidate lies under exactly one root. */
  lemma CoveredOnce(roots: seq<Path>, candidates: seq<Path>, c: Path, i: nat, j: nat)
    requires MinimalCover(roots, candidates) && c in candidates
    requires i < |roots| && j < |roots| && roots[i] <= c && roots[j] <= c
    ensures i == j
  {
    PrefixesCompare(roots[i], roots[j], c);
  }

  /** `_reviewed_read_only_roots`. */
  method ReviewedRoots(packageRoot: Path, prefix: Path, basePrefix: Path, explicit: seq<Path>, dataDir: Option<Path>)
    returns (r: Result<seq<Path>, MountError>)
    ensures var all := [packageRoot, prefix, basePrefix] + explicit;
            && (r.Ok? <==> && [] !in all[..3]
                           && forall c :: c in all && dataDir.Some? ==> !(c <= dataDir.value) && !(dataDir.value <= c))
            && (r.Ok? ==> MinimalCover(r.value, all))
  {
    ghost var all := [packageRoot, prefix, basePrefix] + explicit;
    if packageRoot == [] || prefix == [] || basePrefix == [] {
      assert [] in all[..3];
      return Err(RootDirectory);
    }
    var candidates := [packageRoot, prefix, basePrefix];
    candidates := candidates + explicit;
    var order := ByParts(candidates);
    r := LeastOf(order, dataDir);
    assert forall c :: c in order <==> c in all;
  }

  /** The loop over the candidates, shorter ones first. */
  method LeastOf(order: seq<Path>, dataDir: Option<Path>) returns (r: Result<seq<Path>, MountError>)
    requires Shortlex(order)
    ensures r.Ok? <==> forall c :: c in order ==> Clear(c, dataDir)
    ensures r.Ok? ==> MinimalCover(r.value, order)
  {
    var roots: seq<Path> := [];
    for i := 0 to |order|
      invariant forall c :: c in order[..i] ==> Clear(c, dataDir)
      invariant MinimalCover(roots, order[..i])
    {
      var candidate := order[i];
      assert order[..i + 1] == order[..i] + [candidate];
      if dataDir.Some? && (candidate == dataDir.value || candidate <= dataDir.value || dataDir.value <= candidate) {
        assert candidate in order;
        return Err(ExposesData);
      }
      if forall root :: root in roots ==> !Under(root, candidate) {
        Extend(roots, order, i);
        roots := roots + [candidate];
      } else {
        Covered(roots, order, i);
      }
    }
    assert order[..|order|] == order;
    return Ok(roots);
  }

  /** No earlier candidate lies under the next one. */
  lemma NothingAbove(order: seq<Path>, i: nat, c: Path)
    requires Shortlex(order) && i < |order| && c in order[..i]
    ensures c != order[i] && !Under(order[i], c)
  {
    var k :| 0 <= k < i && order[k] == c;
  }

  /** A candidate considered later leaves the least elements so far as they are. */
  lemma LeastStays(order: seq<Path>, i: nat, r: Path)
    requires Shortlex(order) && i < |order| && r != order[i]
    ensures Least(r, order[..i + 1]) <==> Least(r, order[..i])
  {
    assert order[..i + 1] == order[..i] + [order[i]];
    if r in order[..i] {
      NothingAbove(order, i, r);
    }
  }

  /** The next candidate is least exactly if no root so far lies above it. */
  lemma LeastJoins(roots: seq<Path>, order: seq<Path>, i: nat)
    requires Shortlex(order) && i < |order| && MinimalCover(roots, order[..i])
    ensures Least(order[i], order[..i + 1]) <==> !HasRoot(order[i], roots)
  {
    var p := order[i];
    assert order[..i + 1] == order[..i] + [p];
    if HasRoot(p, roots) {
      var r :| r in roots && Under(r, p);
      assert Least(r, order[..i]);
      NothingAbove(order, i, r);
    } else if c :| c in order[..i] && Under(c, p) {
      assert HasRoot(c, roots);
      var r :| r in roots && Under(r, c);
      PrefixTransitive(r, c, p);
    }
  }

  lemma Extend(roots: seq<Path>, order: seq<Path>, i: nat)
    requires Shortlex(order) && i < |order| && MinimalCover(roots, order[..i])
    requires !HasRoot(order[i], roots)
    ensures MinimalCover(roots + [order[i]], order[..i + 1])
  {
    var p, next := order[i], roots + [order[i]];
    assert order[..i + 1] == order[..i] + [p];
    forall r
      ensures r in next <==> Least(r, order[..i + 1])
    {
      if r == p {
        LeastJoins(roots, order, i);
      } else {
        LeastStays(order, i, r);
      }
    }
    forall c | c in order[..i + 1]
      ensures HasRoot(c, next)
    {
      if c in order[..i] {
        assert HasRoot(c, roots);
        var r :| r in roots && Under(r, c);
        assert r in next;
      } else {
        assert Under(p, c) && p in next;
      }
    }
    forall k | 0 <= k < |roots|
      ensures !(roots[k] <= p) && !(p <= roots[k])
    {
      assert roots[k] in roots && !Under(roots[k], p);
      assert Least(roots[k], order[..i]);
      NothingAbove(order, i, roots[k]);
    }
  }

  lemma Covered(roots: seq<Path>, order: seq<Path>, i: nat)
    requires Shortlex(order) && i < |order| && MinimalCover(roots, order[..i])
    requires HasRoot(order[i], roots)
    ensures MinimalCover(roots, order[..i + 1])
  {
    assert order[..i + 1] == order[..i] + [order[i]];
    forall r
      ensures r in roots <==> Least(r, order[..i + 1])
    {
      if r == order[i] {
        LeastJoins(roots, order, i);
        if r in roots {
          assert Least(r, order[..i]);
          NothingAbove(order, i, r);
          assert false;
        }
      } else {
        LeastStays(order, i, r);
      }
    }
  }

  lemma PrefixTransitive(a: Path, b: Path, c: Path)
    requires a <= b <= c
    ensures a <= c
  {
    assert a == c[..|a|];
  }

  // ---- Mount operations --------------------------------------------------------------------

  datatype Op =
    | Bind(at: Path)
    | Proc(at: Path)
    | DevFs(at: Path)
    | Tmpfs(at: Path)
    | Dir(at: Path)
    | Symlink(at: Path)

  predicate Covers(op: Op, p: Path) {
    !op.Dir? && !op.Symlink? && op.at <= p
  }

  /** Operations apply in order: a path is served by the last mount at or above it. */
  function Visible(ops: seq<Op>, p: Path): Option<Op> {
    if ops == [] then None
    else if Covers(ops[|ops| - 1], p) then Some(ops[|ops| - 1])
    else Visible(ops[..|ops| - 1], p)
  }

  lemma {:induction false} VisibleAppend(a: seq<Op>, b: seq<Op>, p: Path)
    ensures Visible(a + b, p) == if Visible(b, p).Some? then Visible(b, p) else Visible(a, p)
    decreases |b|
  {
    if b == [] {
      assert a + b == a;
    } else {
      assert (a + b)[..|a + b| - 1] == a + b[..|b| - 1];
      VisibleAppend(a, b[..|b| - 1], p);
    }
  }

  lemma {:induction false} VisibleCovers(ops: seq<Op>, p: Path)
    ensures Visible(ops, p).Some? ==> Visible(ops, p).value in ops && Covers(Visible(ops, p).value, p)
    ensures Visible(ops, p).None? ==> forall op :: op in ops ==> !Covers(op, p)
  {
    if ops != [] {
      VisibleCovers(ops[..|ops| - 1], p);
      assert ops == ops[..|ops| - 1] + [ops[|ops| - 1]];
    }
  }

  function Binds(roots: seq<Path>): (ops: seq<Op>)
    ensures |ops| == |roots| && forall i :: 0 <= i < |roots| ==> ops[i] == Bind(roots[i])
  {
    seq(|roots|, i requires 0 <= i < |roots| => Bind(roots[i]))
  }

  /** The worker's own file systems, mounted between the ordinary and the scratch roots. */
  const PRIVATE: seq<Op> :=
    [Proc(PROC), DevFs(DEV), Tmpfs(TMP), Tmpfs(["dev", "shm"]),
     Dir(["tmp", "home"]), Dir(["tmp", "cache"]), Dir(["tmp", "config"])]

  predicate Kernel(r: Path) {
    PROC <= r || DEV <= r
  }

  lemma VisibleStep(ops: seq<Op>, k: nat, p: Path)
    requires k < |ops|
    ensures Visible(ops[..k + 1], p) == if Covers(ops[k], p) then Some(ops[k]) else Visible(ops[..k], p)
  {
    assert ops[..k + 1][..k] == ops[..k];
  }

  lemma PrivateView(p: Path)
    ensures Visible(PRIVATE, p) ==
            if ["dev", "shm"] <= p then Some(Tmpfs(["dev", "shm"]))
            else if TMP <= p then Some(Tmpfs(TMP))
            else if DEV <= p then Some(DevFs(DEV))
            else if PROC <= p then Some(Proc(PROC))
            else None
  {
    var ops := PRIVATE;
    VisibleStep(ops, 0, p);
    VisibleStep(ops, 1, p);
    VisibleStep(ops, 2, p);
    VisibleStep(ops, 3, p);
    VisibleStep(ops, 4, p);
    VisibleStep(ops, 5, p);
    VisibleStep(ops, 6, p);
    assert ops[..7] == ops && Visible(ops[..0], p) == None;
    assert ops[0] == Proc(PROC) && ops[1] == DevFs(DEV) && ops[2] == Tmpfs(TMP) && ops[3] == Tmpfs(["dev", "shm"]);
    assert ops[4].Dir? && ops[5].Dir? && ops[6].Dir?;
    NamesDiffer(p);
  }

  /** A path is below at most one of the private mount points. */
  lemma NamesDiffer(p: Path)
    ensures !(TMP <= p && DEV <= p) && !(TMP <= p && PROC <= p) && !(DEV <= p && PROC <= p)
    ensures ["dev", "shm"] <= p ==> DEV <= p
  {
    assert TMP[0][0] == 't' && DEV[0][0] == 'd' && PROC[0][0] == 'p';
    if TMP <= p {
      assert p[0] == TMP[0];
    }
    if DEV <= p {
      assert p[0] == DEV[0];
    }
    if PROC <= p {
      assert p[0] == PROC[0];
    }
  }

  // ---- The launch list ---------------------------------------------------------------------

  /** `_partition_read_only_roots`: the roots below `/tmp` and the others; `/tmp` itself is refused. */
  method Partition(roots: seq<Path>) returns (r: Result<(seq<Path>, seq<Path>), MountError>)
    ensures r.Ok? <==> TMP !in roots
    ensures r.Ok? ==> Splits(r.value.0, r.value.1, roots)
  {
    var ordinary: seq<Path>, scratch: seq<Path> := [], [];
    for i := 0 to |roots|
      invariant TMP !in roots[..i]
      invariant Splits(ordinary, scratch, roots[..i])
    {
      assert roots[..i + 1] == roots[..i] + [roots[i]];
      if roots[i] == TMP {
        return Err(ScratchRoot);
      }
      if Under(TMP, roots[i]) {
        scratch := scratch + [roots[i]];
      } else {
        ordinary := ordinary + [roots[i]];
      }
    }
    assert roots[..|roots|] == roots;
    return Ok((ordinary, scratch));
  }

  predicate Splits(ordinary: seq<Path>, scratch: seq<Path>, roots: seq<Path>) {
    && multiset(ordinary) + multiset(scratch) == multiset(roots)
    && (forall p :: p in ordinary ==> !Under(TMP, p))
    && (forall p :: p in scratch ==> Under(TMP, p))
  }

  lemma SplitMembers(ordinary: seq<Path>, scratch: seq<Path>, roots: seq<Path>, p: Path)
    requires Splits(ordinary, scratch, roots)
    ensures p in ordinary <==> p in roots && !Under(TMP, p)
    ensures p in scratch <==> p in roots && Under(TMP, p)
  {
    assert multiset(roots)[p] == multiset(ordinary)[p] + multiset(scratch)[p];
    assert p in roots <==> p in multiset(roots);
    assert p in ordinary <==> p in multiset(ordinary);
    assert p in scratch <==> p in multiset(scratch);
  }

  ghost predicate Incomparable(roots: seq<Path>) {
    forall a, b :: a in roots && b in roots && Under(a, b) ==> a == b
  }

  /** Among roots of which none contains another, a path is served by the one above it, if any. */
  lemma BindsView(roots: seq<Path>, p: Path)
    requires Incomparable(roots)
    ensures forall r :: r in roots && Under(r, p) ==> Visible(Binds(roots), p) == Some(Bind(r))
    ensures !HasRoot(p, roots) ==> Visible(Binds(roots), p) == None
  {
    VisibleCovers(Binds(roots), p);
    var v := Visible(Binds(roots), p);
    forall r | r in roots && Under(r, p)
      ensures v == Some(Bind(r))
    {
      var k :| 0 <= k < |roots| && roots[k] == r;
      assert Covers(Binds(roots)[k], p);
      assert v.Some?;
      PrefixesCompare(v.value.at, r, p);
      assert v.value.at in roots;
      assert Under(v.value.at, r) || Under(r, v.value.at);
    }
    if v.Some? {
      assert v.value.at in roots && Under(v.value.at, p);
    }
  }

  function LaunchList(system: seq<Op>, ordinary: seq<Path>, scratch: seq<Path>): seq<Op> {
    system + Binds(ordinary) + PRIVATE + Binds(scratch)
  }

  lemma LayeredView(system: seq<Op>, ordinary: seq<Path>, scratch: seq<Path>, p: Path)
    ensures Visible(LaunchList(system, ordinary, scratch), p) ==
            if Visible(Binds(scratch), p).Some? then Visible(Binds(scratch), p)
            else if Visible(PRIVATE, p).Some? then Visible(PRIVATE, p)
            else if Visible(Binds(ordinary), p).Some? then Visible(Binds(ordinary), p)
            else Visible(system, p)
  {
    VisibleAppend(system + Binds(ordinary) + PRIVATE, Binds(scratch), p);
    VisibleAppend(system + Binds(ordinary), PRIVATE, p);
    VisibleAppend(system, Binds(ordinary), p);
  }

  /** What a worker sees where no root is bound: its private file systems over the system's. */
  function Background(system: seq<Op>, p: Path): Option<Op> {
    if Visible(PRIVATE, p).Some? then Visible(PRIVATE, p) else Visible(system, p)
  }

  /**
   What every path resolves to in the worker.  A root is in effect everywhere below it unless it lies
   under `/proc` or `/dev`, where the private mounts that follow hide all of it.
   */
  ghost predicate RootsInEffect(ops: seq<Op>, system: seq<Op>, roots: seq<Path>) {
    forall p ::
      && (!HasRoot(p, roots) ==> Visible(ops, p) == Background(system, p))
      && (forall r :: r in roots && Under(r, p) ==>
            Visible(ops, p) == if Kernel(r) then Background(system, p) else Some(Bind(r)))
  }

  /** A private mount that covers a path below an ordinary root covers the root or lies in `/dev`. */
  lemma PrivateOverRoot(r: Path, p: Path)
    requires r != [] && Under(r, p) && !Under(TMP, r)
    ensures Visible(PRIVATE, p).Some? <==> Kernel(r)
  {
    PrivateView(p);
    NamesDiffer(p);
    assert r[0] == p[0];
    assert forall name: string :: [name] <= p ==> name == p[0];
    assert forall name: string :: [name] <= r <==> name == r[0];
  }

  lemma ViewOfRoot(system: seq<Op>, ordinary: seq<Path>, scratch: seq<Path>, roots: seq<Path>, r: Path, p: Path)
    requires Splits(ordinary, scratch, roots) && Incomparable(roots) && [] !in roots
    requires r in roots && Under(r, p)
    ensures Visible(LaunchList(system, ordinary, scratch), p) ==
            if Kernel(r) then Background(system, p) else Some(Bind(r))
  {
    Sides(ordinary, scratch, roots);
    LayeredView(system, ordinary, scratch, p);
    BindsView(scratch, p);
    BindsView(ordinary, p);
    SplitMembers(ordinary, scratch, roots, r);
    if Under(TMP, r) {
      NamesDiffer(r);
    } else {
      PrivateOverRoot(r, p);
      if HasRoot(p, scratch) {
        var s :| s in scratch && Under(s, p);
        SplitMembers(ordinary, scratch, roots, s);
        PrefixesCompare(r, s, p);
        assert false;
      }
    }
  }

  lemma Sides(ordinary: seq<Path>, scratch: seq<Path>, roots: seq<Path>)
    requires Splits(ordinary, scratch, roots) && Incomparable(roots)
    ensures Incomparable(ordinary) && Incomparable(scratch)
    ensures forall p :: HasRoot(p, roots) <==> HasRoot(p, ordinary) || HasRoot(p, scratch)
  {
    forall p
      ensures p in ordinary || p in scratch <==> p in roots
    {
      SplitMembers(ordinary, scratch, roots, p);
    }
  }

  lemma AllRootsInEffect(system: seq<Op>, ordinary: seq<Path>, scratch: seq<Path>, roots: seq<Path>)
    requires Splits(ordinary, scratch, roots) && Incomparable(roots) && [] !in roots
    ensures RootsInEffect(LaunchList(system, ordinary, scratch), system, roots)
  {
    var ops := LaunchList(system, ordinary, scratch);
    Sides(ordinary, scratch, roots);
    forall p
      ensures !HasRoot(p, roots) ==> Visible(ops, p) == Background(system, p)
      ensures forall r :: r in roots && Under(r, p) ==>
                Visible(ops, p) == if Kernel(r) then Background(system, p) else Some(Bind(r))
    {
      if !HasRoot(p, roots) {
        LayeredView(system, ordinary, scratch, p);
        BindsView(scratch, p);
        BindsView(ordinary, p);
      }
      forall r | r in roots && Under(r, p)
        ensures Visible(ops, p) == if Kernel(r) then Background(system, p) else Some(Bind(r))
      {
        ViewOfRoot(system, ordinary, scratch, roots, r, p);
      }
    }
  }

  /** The mount operations of `launch_arguments`, after those for the system's own directories. */
  method Launch(system: seq<Op>, roots: seq<Path>) returns (r: Result<seq<Op>, MountError>)
    ensures r.Ok? <==> TMP !in roots
    ensures r.Ok? ==> multiset(r.value) == multiset(system) + multiset(PRIVATE) + multiset(Binds(roots))
    ensures r.Ok? && Incomparable(roots) && [] !in roots ==> RootsInEffect(r.value, system, roots)
  {
    var parts := Partition(roots);
    if parts.Err? {
      return Err(parts.error);
    }
    var (ordinary, scratch) := parts.value;
    var ops := system;
    for i := 0 to |ordinary|
      invariant ops == system + Binds(ordinary)[..i]
    {
      ops := ops + [Bind(ordinary[i])];
    }
    assert Binds(ordinary)[..|ordinary|] == Binds(ordinary);
    ops := ops + PRIVATE;
    for i := 0 to |scratch|
      invariant ops == system + Binds(ordinary) + PRIVATE + Binds(scratch)[..i]
    {
      ops := ops + [Bind(scratch[i])];
    }
    assert Binds(scratch)[..|scratch|] == Binds(scratch);
    BindsCount(ordinary, scratch, roots);
    LaunchView(system, ordinary, scratch, roots);
    return Ok(ops);
  }

  lemma LaunchView(system: seq<Op>, ordinary: seq<Path>, scratch: seq<Path>, roots: seq<Path>)
    requires Splits(ordinary, scratch, roots)
    ensures Incomparable(roots) && [] !in roots ==> RootsInEffect(LaunchList(system, ordinary, scratch), system, roots)
  {
    if Incomparable(roots) && [] !in roots {
      AllRootsInEffect(system, ordinary, scratch, roots);
    }
  }

  lemma {:induction false} BindsMultiset(roots: seq<Path>, op: Op)
    ensures multiset(Binds(roots))[op] == if op.Bind? then multiset(roots)[op.at] else 0
  {
    if roots == [] {
      assert Binds(roots) == [];
    } else {
      var init, last := roots[..|roots| - 1], roots[|roots| - 1];
      assert roots == init + [last] && Binds(roots) == Binds(init) + [Bind(last)];
      BindsMultiset(init, op);
    }
  }

  /** Splitting the roots neither drops nor repeats a bind. */
  lemma BindsCount(ordinary: seq<Path>, scratch: seq<Path>, roots: seq<Path>)
    requires Splits(ordinary, scratch, roots)
    ensures multiset(Binds(ordinary)) + multiset(Binds(scratch)) == multiset(Binds(roots))
  {
    forall op
      ensures multiset(Binds(ordinary))[op] + multiset(Binds(scratch))[op] == multiset(Binds(roots))[op]
    {
      BindsMultiset(ordinary, op);
      BindsMultiset(scratch, op);
      BindsMultiset(roots, op);
      assert op.Bind? ==> (multiset(ordinary) + multiset(scratch))[op.at] == multiset(roots)[op.at];
    }
  }

  // ---- From the configuration to the worker's view -----------------------------------------

  /** The mount below or at a candidate is the bind of a candidate that contains it. */
  ghost predicate ServedFrom(ops: seq<Op>, candidates: seq<Path>, c: Path, p: Path) {
    exists r :: r in candidates && Under(r, c) && Visible(ops, p) == Some(Bind(r))
  }

  lemma CoverIsIncomparable(roots: seq<Path>, candidates: seq<Path>)
    requires MinimalCover(roots, candidates)
    ensures Incomparable(roots)
    ensures [] !in candidates ==> (TMP in candidates <==> TMP in roots) && [] !in roots
  {
    forall a, b | a in roots && b in roots && Under(a, b)
      ensures a == b
    {
      assert Least(a, candidates) && Least(b, candidates);
    }
    if [] !in candidates && TMP in candidates {
      forall c | c in candidates && Under(c, TMP)
        ensures c == TMP
      {
        assert c == TMP[..|c|];
      }
      assert Least(TMP, candidates);
    }
    assert TMP in roots ==> Least(TMP, candidates);
    assert [] in roots ==> Least([], candidates);
  }

  /** Below a candidate the worker sees a reviewed bind exactly if the kernel's mounts leave it alone. */
  lemma CandidateView(ops: seq<Op>, system: seq<Op>, roots: seq<Path>, candidates: seq<Path>, c: Path, p: Path)
    requires MinimalCover(roots, candidates) && RootsInEffect(ops, system, roots)
    requires c in candidates && [] !in candidates && Under(c, p)
    ensures Kernel(c) ==> Visible(ops, p) == Background(system, p)
    ensures ServedFrom(ops, candidates, c, p) <==> !Kernel(c)
  {
    assert HasRoot(c, roots);
    var r :| r in roots && Under(r, c);
    PrefixTransitive(r, c, p);
    assert Least(r, candidates);
    assert r[0] == c[0];
    assert Kernel(r) <==> Kernel(c);
    if Kernel(c) {
      PrivateView(p);
      assert r[0] == p[0];
    }
  }

  /** Nothing of the data directory is served through a root. */
  lemma DataView(ops: seq<Op>, system: seq<Op>, roots: seq<Path>, candidates: seq<Path>, dataDir: Path, p: Path)
    requires MinimalCover(roots, candidates) && RootsInEffect(ops, system, roots)
    requires forall c :: c in candidates ==> Clear(c, Some(dataDir))
    requires Under(dataDir, p)
    ensures Visible(ops, p) == Background(system, p)
  {
    if HasRoot(p, roots) {
      var r :| r in roots && Under(r, p);
      assert Least(r, candidates);
      PrefixesCompare(r, dataDir, p);
      assert false;
    }
  }

  /** Validation, reduction and launch together, stated on the configured paths. */
  method WorkerMounts(packageRoot: Path, prefix: Path, basePrefix: Path, explicit: seq<Path>, dataDir: Option<Path>,
                      system: seq<Op>)
    returns (r: Result<seq<Op>, MountError>)
    ensures var all := [packageRoot, prefix, basePrefix] + explicit;
            && (r.Ok? <==> && [] !in all && TMP !in all
                           && (forall i, j :: 0 <= i < j < |explicit| ==> explicit[i] != explicit[j])
                           && (forall c :: c in all && dataDir.Some? ==> !(c <= dataDir.value) && !(dataDir.value <= c)))
            && (r.Ok? ==> forall c, p :: c in all && c <= p ==>
                  (ServedFrom(r.value, all, c, p) <==> !(["proc"] <= c) && !(["dev"] <= c)))
            && (r.Ok? && dataDir.Some? ==> forall p :: dataDir.value <= p ==> Visible(r.value, p) == Background(system, p))
  {
    var valid := ValidatePaths(explicit);
    if valid.Err? {
      return Err(valid.error);
    }
    var reviewed := ReviewedRoots(packageRoot, prefix, basePrefix, explicit, dataDir);
    if reviewed.Err? {
      return Err(reviewed.error);
    }
    ghost var all := [packageRoot, prefix, basePrefix] + explicit;
    assert [] !in all by {
      assert all[..3] == [packageRoot, prefix, basePrefix];
    }
    CoverIsIncomparable(reviewed.value, all);
    r := Launch(system, reviewed.value);
    if r.Ok? {
      WorkerView(r.value, system, reviewed.value, all, dataDir);
    }
  }

  /** What the worker sees at the configured paths and of the data directory. */
  lemma WorkerView(ops: seq<Op>, system: seq<Op>, roots: seq<Path>, all: seq<Path>, dataDir: Option<Path>)
    requires MinimalCover(roots, all) && RootsInEffect(ops, system, roots) && [] !in all
    requires forall c :: c in all && dataDir.Some? ==> !(c <= dataDir.value) && !(dataDir.value <= c)
    ensures forall c, p :: c in all && c <= p ==> (ServedFrom(ops, all, c, p) <==> !(["proc"] <= c) && !(["dev"] <= c))
    ensures dataDir.Some? ==> forall p :: dataDir.value <= p ==> Visible(ops, p) == Background(system, p)
  {
    forall c, p | c in all && c <= p
      ensures ServedFrom(ops, all, c, p) <==> !(["proc"] <= c) && !(["dev"] <= c)
    {
      CandidateView(ops, system, roots, all, c, p);
    }
    if dataDir.Some? {
      forall p | dataDir.value <= p ensures Visible(ops, p) == Background(system, p) {
        DataView(ops, system, roots, all, dataDir.value, p);
      }
    }
  }

  /** A reviewed root under `/dev` is bound and then hidden by the device file system. */
  lemma DeviceRootIsHidden()
    ensures var root := ["dev", "models"];
            Visible(LaunchList([], [root], []), root) == Some(DevFs(DEV))
  {
    var root := ["dev", "models"];
    LayeredView([], [root], [], root);
    PrivateView(root);
    NamesDiffer(root);
    assert root[..1] == DEV;
    assert root[1][0] == 'm' && ["dev", "shm"][1][0] == 's';
  }
}
