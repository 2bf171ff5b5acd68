/**
 Dependency scopes of the release evidence (`scripts/generate_release_evidence.py`): a worklist over
 (package, extras) activations on a lock file whose dependency graph may be cyclic.
 */
module ScopeClosure {
  import opened Common

  /** A package identity `name==version`. */
  datatype Key = Key(name: string, version: string)

  /** A dependency reference; `extras` is the sorted tuple of requested extras. */
  datatype Reference = Reference(name: string, version: Option<string>, extras: seq<string>)

  datatype Package = Package(key: Key, dependencies: seq<Reference>, optional: map<string, seq<Reference>>)

  datatype Activation = Activation(key: Key, extras: seq<string>)

  /** Who asks for a package: the project itself, or another package. */
  datatype Parent = Root | Of(key: Key)

  datatype Edge = Edge(parent: Parent, child: Key)

  datatype LockError = MissingVersion | Ambiguous | MissingPackage | Duplicate

  /** The two indexes that `load_release_inputs` builds over the locked packages. */
  datatype Index = Index(byKey: map<Key, Package>, byName: map<string, seq<Package>>)

  /** Both indexes hold the same packages. */
  ghost predicate Consistent(index: Index) {
    && (forall n, i :: n in index.byName && 0 <= i < |index.byName[n]| ==> NamedIsKeyed(index, n, i))
    && (forall k :: k in index.byKey ==> KeyedIsNamed(index, k))
    && (forall n, i, j :: n in index.byName && 0 <= i < j < |index.byName[n]| ==> index.byName[n][i].key != index.byName[n][j].key)
  }

  ghost predicate NamedIsKeyed(index: Index, n: string, i: nat)
    requires n in index.byName && i < |index.byName[n]|
  {
    var p := index.byName[n][i];
    p.key in index.byKey && index.byKey[p.key] == p && p.key.name == n
  }

  ghost predicate KeyedIsNamed(index: Index, k: Key)
    requires k in index.byKey
  {
    k.name in index.byName && index.byKey[k] in index.byName[k.name] && index.byKey[k].key == k
  }

  ghost predicate DistinctKeys(packages: seq<Package>) {
    forall i, j :: 0 <= i < j < |packages| ==> packages[i].key != packages[j].key
  }

  function Keys(packages: seq<Package>): set<Key> {
    set p | p in packages :: p.key
  }

  function Insert(index: Index, p: Package): Index {
    var same := if p.key.name in index.byName then index.byName[p.key.name] else [];
    Index(index.byKey[p.key := p], index.byName[p.key.name := same + [p]])
  }

  function IndexOf(packages: seq<Package>): Index {
    if packages == [] then Index(map[], map[]) else Insert(IndexOf(packages[..|packages| - 1]), packages[|packages| - 1])
  }

  lemma InsertKeepsConsistent(before: Index, p: Package)
    requires Consistent(before) && p.key !in before.byKey
    ensures Consistent(Insert(before, p))
  {
    var after := Insert(before, p);
    forall n, i | n in after.byName && 0 <= i < |after.byName[n]|
      ensures NamedIsKeyed(after, n, i)
    {
      InsertKeepsNamed(before, p, n, i);
    }
    forall k | k in after.byKey ensures KeyedIsNamed(after, k) {
      InsertKeepsKeyed(before, p, k);
    }
    forall n, i, j | n in after.byName && 0 <= i < j < |after.byName[n]|
      ensures after.byName[n][i].key != after.byName[n][j].key
    {
      InsertKeepsDistinct(before, p, n, i, j);
    }
  }

  lemma InsertKeepsNamed(before: Index, p: Package, n: string, i: nat)
    requires Consistent(before) && p.key !in before.byKey
    requires n in Insert(before, p).byName && i < |Insert(before, p).byName[n]|
    ensures NamedIsKeyed(Insert(before, p), n, i)
  {
    if n in before.byName && i < |before.byName[n]| {
      assert NamedIsKeyed(before, n, i);
    }
  }

  lemma InsertKeepsKeyed(before: Index, p: Package, k: Key)
    requires Consistent(before) && k in Insert(before, p).byKey
    ensures KeyedIsNamed(Insert(before, p), k)
  {
    var same := if p.key.name in before.byName then before.byName[p.key.name] else [];
    if k == p.key {
      assert (same + [p])[|same|] == p;
    } else {
      assert KeyedIsNamed(before, k);
      var i :| 0 <= i < |before.byName[k.name]| && before.byName[k.name][i] == before.byKey[k];
      assert Insert(before, p).byName[k.name][i] == before.byKey[k];
    }
  }

  lemma InsertKeepsDistinct(before: Index, p: Package, n: string, i: nat, j: nat)
    requires Consistent(before) && p.key !in before.byKey
    requires n in Insert(before, p).byName && i < j < |Insert(before, p).byName[n]|
    ensures Insert(before, p).byName[n][i].key != Insert(before, p).byName[n][j].key
  {
    if n in before.byName && i < |before.byName[n]| {
      assert NamedIsKeyed(before, n, i);
    }
  }

  lemma IndexKeys(packages: seq<Package>)
    ensures IndexOf(packages).byKey.Keys == Keys(packages)
  {
    if packages != [] {
      var front, last := packages[..|packages| - 1], packages[|packages| - 1];
      IndexKeys(front);
      assert packages == front + [last];
      assert forall p :: p in packages <==> p in front || p == last;
    }
  }

  /** Indexing distinct packages loses none and invents none. */
  lemma {:induction false} IndexIsConsistent(packages: seq<Package>)
    requires DistinctKeys(packages)
    ensures Consistent(IndexOf(packages)) && IndexOf(packages).byKey.Keys == Keys(packages)
  {
    IndexKeys(packages);
    if packages != [] {
      var front, last := packages[..|packages| - 1], packages[|packages| - 1];
      IndexIsConsistent(front);
      assert last.key !in Keys(front) by {
        forall p | p in front ensures p.key != last.key {
          var i :| 0 <= i < |front| && front[i] == p;
          assert packages[i].key != packages[|packages| - 1].key;
        }
      }
      InsertKeepsConsistent(IndexOf(front), last);
    }
  }

  /** Index the locked packages; a repeated identity is an error. */
  method BuildIndex(packages: seq<Package>) returns (r: Result<Index, LockError>)
    ensures r.Ok? <==> DistinctKeys(packages)
    ensures r.Ok? ==> r.value == IndexOf(packages)
  {
    var index := Index(map[], map[]);
    for i := 0 to |packages|
      invariant DistinctKeys(packages[..i]) && index == IndexOf(packages[..i])
    {
      var p := packages[i];
      IndexKeys(packages[..i]);
      assert packages[..i + 1][..i] == packages[..i];
      if p.key in index.byKey {
        var q :| q in packages[..i] && q.key == p.key;
        return Err(Duplicate);
      }
      forall j | 0 <= j < i ensures packages[j].key != p.key {
        assert packages[..i][j] in packages[..i];
      }
      assert forall j :: 0 <= j < i ==> packages[..i + 1][j] == packages[..i][j];
      index := Insert(index, p);
    }
    assert packages[..|packages|] == packages;
    return Ok(index);
  }

  lemma CandidatesAreLocked(index: Index, name: string)
    requires Consistent(index)
    ensures name in index.byName ==> forall p :: p in index.byName[name] ==> p.key in index.byKey && p.key.name == name
  {
    if name in index.byName {
      forall p | p in index.byName[name] ensures p.key in index.byKey && p.key.name == name {
        var i :| 0 <= i < |index.byName[name]| && index.byName[name][i] == p;
        assert NamedIsKeyed(index, name, i);
      }
    }
  }

  /** `_reference_key`: the locked identity a reference stands for. */
  function Resolve(index: Index, ref: Reference): (r: Result<Key, LockError>)
    ensures Consistent(index) && r.Ok? ==> r.value in index.byKey && r.value.name == ref.name
  {
    var candidates := if ref.name in index.byName then index.byName[ref.name] else [];
    if ref.version.Some? then
      var key := Key(ref.name, ref.version.value);
      assert Consistent(index) ==> forall p :: p in candidates ==> p.key in index.byKey by {
        if Consistent(index) {
          CandidatesAreLocked(index, ref.name);
        }
      }
      if exists p :: p in candidates && p.key == key then Ok(key) else Err(MissingVersion)
    else if |candidates| != 1 then Err(Ambiguous)
    else
      assert Consistent(index) ==> NamedIsKeyed(index, ref.name, 0);
      Ok(candidates[0].key)
  }

  function ExtraReferences(p: Package, extras: seq<string>): seq<Reference> {
    if extras == [] then []
    else ExtraReferences(p, extras[..|extras| - 1])
         + (if extras[|extras| - 1] in p.optional then p.optional[extras[|extras| - 1]] else [])
  }

  /** The references an activated package follows. */
  function References(index: Index, a: Activation): seq<Reference> {
    if a.key in index.byKey then index.byKey[a.key].dependencies + ExtraReferences(index.byKey[a.key], a.extras) else []
  }

  // ---- What a lock says, told by its packages ----------------------------------------------

  /** The reference stands for this locked package: the one of that version, or the only one of that name. */
  ghost predicate Stands(index: Index, r: Reference, k: Key) {
    && k in index.byKey && k.name == r.name
    && match r.version
       case Some(version) => k.version == version
       case None => forall other :: other in index.byKey && other.name == r.name ==> other == k
  }

  /** An activated package follows its dependencies and those of its activated extras. */
  ghost predicate Follows(index: Index, a: Activation, r: Reference) {
    && a.key in index.byKey
    && var p := index.byKey[a.key];
       r in p.dependencies || exists e :: e in a.extras && e in p.optional && r in p.optional[e]
  }

  lemma ResolveTells(index: Index, r: Reference, k: Key)
    requires Consistent(index)
    ensures Resolve(index, r) == Ok(k) <==> Stands(index, r, k)
  {
    CandidatesAreLocked(index, r.name);
    if k in index.byKey {
      assert KeyedIsNamed(index, k);
    }
    if r.version.None? {
      OnlyOneStands(index, r, k);
    }
  }

  lemma TwoDiffer(index: Index, name: string)
    requires Consistent(index) && name in index.byName && |index.byName[name]| > 1
    ensures index.byName[name][0].key != index.byName[name][1].key
  {
  }

  lemma OnlyOneStands(index: Index, r: Reference, k: Key)
    requires Consistent(index) && r.version.None?
    ensures Resolve(index, r) == Ok(k) <==> Stands(index, r, k)
  {
    CandidatesAreLocked(index, r.name);
    if Resolve(index, r) == Ok(k) {
      assert NamedIsKeyed(index, r.name, 0);
      forall other | other in index.byKey && other.name == r.name ensures other == k {
        assert KeyedIsNamed(index, other);
      }
    }
    if Stands(index, r, k) {
      assert KeyedIsNamed(index, k);
      var candidates := index.byName[r.name];
      forall i | 0 <= i < |candidates| ensures candidates[i].key == k {
        assert candidates[i] in candidates;
      }
      assert candidates != [];
      if |candidates| > 1 {
        TwoDiffer(index, r.name);
      }
    }
  }

  lemma {:induction false} ExtrasTell(p: Package, extras: seq<string>, r: Reference)
    ensures r in ExtraReferences(p, extras) <==> exists e :: e in extras && e in p.optional && r in p.optional[e]
    decreases |extras|
  {
    if extras != [] {
      var front, last := extras[..|extras| - 1], extras[|extras| - 1];
      assert extras == front + [last];
      ExtrasTell(p, front, r);
    }
  }

  lemma ReferencesTell(index: Index, a: Activation, r: Reference)
    ensures r in References(index, a) <==> Follows(index, a, r)
  {
    if a.key in index.byKey {
      ExtrasTell(index.byKey[a.key], a.extras, r);
    }
  }

  ghost predicate Starts(index: Index, roots: seq<Reference>, b: Activation) {
    exists r :: r in roots && Stands(index, r, b.key) && b.extras == r.extras
  }

  ghost predicate Leads(index: Index, a: Activation, b: Activation) {
    exists r :: Follows(index, a, r) && Stands(index, r, b.key) && b.extras == r.extras
  }

  /** A path of references from the roots. */
  ghost predicate Path(index: Index, roots: seq<Reference>, path: seq<Activation>) {
    && path != [] && Starts(index, roots, path[0])
    && (forall i :: 0 <= i < |path| - 1 ==> Leads(index, path[i], path[i + 1]))
  }

  ghost predicate Reached(index: Index, roots: seq<Reference>, b: Activation) {
    exists path :: Path(index, roots, path) && path[|path| - 1] == b
  }

  /** A package is reached with some extras. */
  ghost predicate Reaches(index: Index, roots: seq<Reference>, k: Key) {
    exists b :: Reached(index, roots, b) && b.key == k
  }

  // ---- The least fixed point ---------------------------------------------------------------

  /** The activations that resolvable references lead to. */
  function Targets(index: Index, refs: seq<Reference>): set<Activation> {
    set r | r in refs && Resolve(index, r).Ok? :: Activation(Resolve(index, r).value, r.extras)
  }

  ghost predicate ClosedUnder(index: Index, roots: seq<Reference>, s: set<Activation>) {
    Targets(index, roots) <= s && forall a :: a in s ==> Targets(index, References(index, a)) <= s
  }

  /** `s` is the least set that holds the roots and everything its members activate. */
  ghost predicate IsLeast(index: Index, roots: seq<Reference>, s: set<Activation>) {
    ClosedUnder(index, roots, s) && forall t :: ClosedUnder(index, roots, t) ==> s <= t
  }

  predicate AllResolve(index: Index, refs: seq<Reference>) {
    forall r :: r in refs ==> Resolve(index, r).Ok?
  }

  lemma TargetsTell(index: Index, roots: seq<Reference>, a: Activation, b: Activation)
    requires Consistent(index)
    ensures b in Targets(index, roots) <==> Starts(index, roots, b)
    ensures b in Targets(index, References(index, a)) <==> Leads(index, a, b)
  {
    forall r ensures Stands(index, r, b.key) <==> Resolve(index, r) == Ok(b.key) {
      ResolveTells(index, r, b.key);
    }
    forall r ensures r in References(index, a) <==> Follows(index, a, r) {
      ReferencesTell(index, a, r);
    }
  }

  lemma OneFurther(index: Index, roots: seq<Reference>, a: Activation, b: Activation)
    requires Reached(index, roots, a) && Leads(index, a, b)
    ensures Reached(index, roots, b)
  {
    var path :| Path(index, roots, path) && path[|path| - 1] == a;
    var longer := path + [b];
    forall i | 0 <= i < |longer| - 1 ensures Leads(index, longer[i], longer[i + 1]) {
      assert longer[i] == path[i];
      if i < |path| - 1 {
        assert longer[i + 1] == path[i + 1];
      }
    }
    assert Path(index, roots, longer);
  }

  lemma {:induction false} PathIsClosed(index: Index, roots: seq<Reference>, s: set<Activation>, path: seq<Activation>, i: nat)
    requires Consistent(index) && ClosedUnder(index, roots, s) && Path(index, roots, path) && i < |path|
    ensures path[i] in s
    decreases i
  {
    if i == 0 {
      TargetsTell(index, roots, path[0], path[0]);
    } else {
      PathIsClosed(index, roots, s, path, i - 1);
      assert Leads(index, path[i - 1], path[i - 1 + 1]);
      TargetsTell(index, roots, path[i - 1], path[i]);
    }
  }

  /** The least fixed point is what paths of references reach. */
  lemma LeastIsReached(index: Index, roots: seq<Reference>, s: set<Activation>)
    requires Consistent(index) && IsLeast(index, roots, s)
    ensures forall b :: b in s <==> Reached(index, roots, b)
  {
    var reached := set b | b in s && Reached(index, roots, b);
    assert ClosedUnder(index, roots, reached) by {
      ReachedIsClosed(index, roots, s, reached);
    }
    assert s <= reached;
    forall b | Reached(index, roots, b) ensures b in s {
      var path :| Path(index, roots, path) && path[|path| - 1] == b;
      PathIsClosed(index, roots, s, path, |path| - 1);
    }
  }

  lemma ReachedIsClosed(index: Index, roots: seq<Reference>, s: set<Activation>, reached: set<Activation>)
    requires Consistent(index) && ClosedUnder(index, roots, s)
    requires forall b :: b in reached <==> b in s && Reached(index, roots, b)
    ensures ClosedUnder(index, roots, reached)
  {
    forall b | b in Targets(index, roots) ensures b in reached {
      TargetsTell(index, roots, b, b);
      assert Path(index, roots, [b]);
    }
    forall a, b | a in reached && b in Targets(index, References(index, a)) ensures b in reached {
      TargetsTell(index, roots, a, b);
      OneFurther(index, roots, a, b);
    }
  }

  /** Least fixed points are unique. */
  lemma LeastIsUnique(index: Index, roots: seq<Reference>, s: set<Activation>, t: set<Activation>)
    requires IsLeast(index, roots, s) && IsLeast(index, roots, t)
    ensures s == t
  {
    assert s <= t && t <= s;
  }

  function PackagesOf(s: set<Activation>): set<Key> {
    set a | a in s :: a.key
  }

  ghost predicate IsEdge(index: Index, roots: seq<Reference>, s: set<Activation>, e: Edge) {
    match e.parent
    case Root => exists b :: b in Targets(index, roots) && b.key == e.child
    case Of(k) => exists a, b :: a in s && a.key == k && b in Targets(index, References(index, a)) && b.key == e.child
  }

  // ---- Termination: only finitely many activations can occur -------------------------------

  function AllReferences(index: Index, roots: seq<Reference>): set<Reference> {
    (set r | r in roots)
    + (set k, r | k in index.byKey && r in index.byKey[k].dependencies :: r)
    + (set k, e, r | k in index.byKey && e in index.byKey[k].optional && r in index.byKey[k].optional[e] :: r)
  }

  function Universe(index: Index, roots: seq<Reference>): set<Activation> {
    set r | r in AllReferences(index, roots) && Resolve(index, r).Ok? :: Activation(Resolve(index, r).value, r.extras)
  }

  lemma ExtrasAreOptional(p: Package, extras: seq<string>, r: Reference)
    requires r in ExtraReferences(p, extras)
    ensures exists e :: e in p.optional && r in p.optional[e]
  {
    if extras != [] && r in ExtraReferences(p, extras[..|extras| - 1]) {
      ExtrasAreOptional(p, extras[..|extras| - 1], r);
    }
  }

  lemma TargetsInUniverse(index: Index, roots: seq<Reference>, a: Activation)
    ensures Targets(index, roots) <= Universe(index, roots)
    ensures Targets(index, References(index, a)) <= Universe(index, roots)
  {
    forall b | b in Targets(index, References(index, a)) ensures b in Universe(index, roots) {
      var r :| r in References(index, a) && Resolve(index, r).Ok? && b == Activation(Resolve(index, r).value, r.extras);
      var p := index.byKey[a.key];
      if r !in p.dependencies {
        ExtrasAreOptional(p, a.extras, r);
      }
      assert r in AllReferences(index, roots);
    }
  }

  // ---- The worklist ------------------------------------------------------------------------

  datatype Item = Item(parent: Parent, activation: Activation)

  function Pending(queue: seq<Item>): set<Activation> {
    set i | i in queue :: i.activation
  }

  function EdgesOf(queue: seq<Item>): set<Edge> {
    set i | i in queue :: Edge(i.parent, i.activation.key)
  }

  lemma SplitQueue(queue: seq<Item>)
    requires queue != []
    ensures Pending(queue) == Pending(queue[1..]) + {queue[0].activation}
    ensures EdgesOf(queue) == EdgesOf(queue[1..]) + {Edge(queue[0].parent, queue[0].activation.key)}
  {
    assert forall i :: i in queue <==> i == queue[0] || i in queue[1..];
  }

  lemma JoinQueues(a: seq<Item>, b: seq<Item>)
    ensures Pending(a + b) == Pending(a) + Pending(b)
    ensures EdgesOf(a + b) == EdgesOf(a) + EdgesOf(b)
  {
    assert forall i :: i in a + b <==> i in a || i in b;
  }

  /** The edges from one parent to the targets of its references. */
  function EdgesFrom(parent: Parent, targets: set<Activation>): set<Edge> {
    set b | b in targets :: Edge(parent, b.key)
  }

  /** Resolve references one by one into work items. */
  method Enqueue(index: Index, parent: Parent, refs: seq<Reference>) returns (r: Result<seq<Item>, LockError>)
    requires Consistent(index)
    ensures r.Ok? <==> AllResolve(index, refs)
    ensures r.Ok? ==> Pending(r.value) == Targets(index, refs) && EdgesOf(r.value) == EdgesFrom(parent, Targets(index, refs))
    ensures r.Err? ==> r.error != MissingPackage
  {
    var items: seq<Item> := [];
    for i := 0 to |refs|
      invariant ItemsFor(index, parent, refs[..i], items)
    {
      var key := Resolve(index, refs[i]);
      if key.Err? {
        assert refs[i] in refs;
        return Err(key.error);
      }
      GrowItems(index, parent, refs, i, items);
      items := items + [Item(parent, Activation(key.value, refs[i].extras))];
    }
    assert refs[..|refs|] == refs;
    return Ok(items);
  }

  /** The work items of references that all resolve. */
  ghost predicate ItemsFor(index: Index, parent: Parent, refs: seq<Reference>, items: seq<Item>) {
    && AllResolve(index, refs)
    && Pending(items) == Targets(index, refs)
    && EdgesOf(items) == EdgesFrom(parent, Targets(index, refs))
  }

  lemma GrowItems(index: Index, parent: Parent, refs: seq<Reference>, i: nat, items: seq<Item>)
    requires i < |refs| && Resolve(index, refs[i]).Ok? && ItemsFor(index, parent, refs[..i], items)
    ensures ItemsFor(index, parent, refs[..i + 1],
                     items + [Item(parent, Activation(Resolve(index, refs[i]).value, refs[i].extras))])
  {
    GrowTargets(index, refs, i);
    JoinQueues(items, [Item(parent, Activation(Resolve(index, refs[i]).value, refs[i].extras))]);
  }

  lemma GrowTargets(index: Index, refs: seq<Reference>, i: nat)
    requires i < |refs| && Resolve(index, refs[i]).Ok?
    ensures Targets(index, refs[..i + 1]) ==
            Targets(index, refs[..i]) + {Activation(Resolve(index, refs[i]).value, refs[i].extras)}
    ensures AllResolve(index, refs[..i]) ==> AllResolve(index, refs[..i + 1])
  {
    assert forall r :: r in refs[..i + 1] <==> r in refs[..i] || r == refs[i];
  }

  datatype Closure = Closure(packages: set<Key>, edges: set<Edge>)

  /** The worklist between two iterations. */
  ghost predicate WorkInv(index: Index, roots: seq<Reference>, seen: set<Activation>, queue: seq<Item>) {
    && AllResolve(index, roots)
    && seen + Pending(queue) <= Universe(index, roots)
    && Targets(index, roots) <= seen + Pending(queue)
    && (forall a :: a in seen ==> Targets(index, References(index, a)) <= seen + Pending(queue))
    && (forall a :: a in seen ==> AllResolve(index, References(index, a)))
    && (forall t :: ClosedUnder(index, roots, t) ==> seen + Pending(queue) <= t)
  }

  ghost predicate EdgeInv(index: Index, roots: seq<Reference>, seen: set<Activation>, edges: set<Edge>) {
    && (forall e :: e in edges ==> IsEdge(index, roots, seen, e))
    && EdgesFrom(Root, Targets(index, roots)) <= edges
    && (forall a :: a in seen ==> EdgesFrom(Of(a.key), Targets(index, References(index, a))) <= edges)
  }

  lemma EdgesGrow(index: Index, roots: seq<Reference>, seen: set<Activation>, a: Activation, edges: set<Edge>)
    requires EdgeInv(index, roots, seen, edges)
    ensures EdgeInv(index, roots, seen + {a}, edges + EdgesFrom(Of(a.key), Targets(index, References(index, a))))
  {
    var more := EdgesFrom(Of(a.key), Targets(index, References(index, a)));
    forall e | e in edges + more ensures IsEdge(index, roots, seen + {a}, e) {
      if e in edges {
        assert IsEdge(index, roots, seen, e);
        if e.parent.Of? {
          var x, b :| x in seen && x.key == e.parent.key && b in Targets(index, References(index, x)) && b.key == e.child;
          assert x in seen + {a};
        }
      } else {
        var b :| b in Targets(index, References(index, a)) && e == Edge(Of(a.key), b.key);
        assert a in seen + {a};
      }
    }
  }

  lemma EdgesComplete(index: Index, roots: seq<Reference>, seen: set<Activation>, edges: set<Edge>)
    requires EdgeInv(index, roots, seen, edges)
    ensures forall e :: e in edges <==> IsEdge(index, roots, seen, e)
  {
    forall e | IsEdge(index, roots, seen, e) ensures e in edges {
      EdgeIsRecorded(index, roots, seen, edges, e);
    }
  }

  lemma EdgeIsRecorded(index: Index, roots: seq<Reference>, seen: set<Activation>, edges: set<Edge>, e: Edge)
    requires EdgeInv(index, roots, seen, edges) && IsEdge(index, roots, seen, e)
    ensures e in edges
  {
    if e.parent.Root? {
      var b :| b in Targets(index, roots) && b.key == e.child;
      assert e in EdgesFrom(Root, Targets(index, roots));
    } else {
      var a, b :| a in seen && a.key == e.parent.key && b in Targets(index, References(index, a)) && b.key == e.child;
      assert e in EdgesFrom(Of(a.key), Targets(index, References(index, a)));
    }
  }

  /** An activation that was seen before is only dropped from the queue. */
  lemma DropSeen(index: Index, roots: seq<Reference>, seen: set<Activation>, queue: seq<Item>)
    requires WorkInv(index, roots, seen, queue) && queue != [] && queue[0].activation in seen
    ensures WorkInv(index, roots, seen, queue[1..])
  {
    SplitQueue(queue);
    assert seen + Pending(queue[1..]) == seen + Pending(queue);
  }

  lemma ActivateAdds(seen: set<Activation>, queue: seq<Item>, items: seq<Item>)
    requires queue != []
    ensures seen + {queue[0].activation} + Pending(queue[1..] + items) == seen + Pending(queue) + Pending(items)
    ensures queue[0].activation in Pending(queue)
  {
    SplitQueue(queue);
    JoinQueues(queue[1..], items);
  }

  /** A new activation is seen, and its targets are queued. */
  lemma Activate(index: Index, roots: seq<Reference>, seen: set<Activation>, queue: seq<Item>, items: seq<Item>)
    requires WorkInv(index, roots, seen, queue) && queue != []
    requires AllResolve(index, References(index, queue[0].activation))
    requires Pending(items) == Targets(index, References(index, queue[0].activation))
    ensures WorkInv(index, roots, seen + {queue[0].activation}, queue[1..] + items)
  {
    var a := queue[0].activation;
    ActivateAdds(seen, queue, items);
    var all := seen + {a} + Pending(queue[1..] + items);
    assert all == seen + Pending(queue) + Targets(index, References(index, a));
    TargetsInUniverse(index, roots, a);
    forall t | ClosedUnder(index, roots, t) ensures all <= t {
      assert seen + Pending(queue) <= t;
      assert a in t;
    }
  }

  lemma PackagesGrow(seen: set<Activation>, a: Activation)
    ensures PackagesOf(seen + {a}) == PackagesOf(seen) + {a.key}
  {
  }

  /** Everything the worklist knows between two iterations. */
  ghost predicate LoopInv(index: Index, roots: seq<Reference>, seen: set<Activation>, queue: seq<Item>, c: Closure) {
    && WorkInv(index, roots, seen, queue)
    && EdgeInv(index, roots, seen, c.edges + EdgesOf(queue))
    && c.packages == PackagesOf(seen)
  }

  /** Take one item off the queue. */
  method Process(index: Index, roots: seq<Reference>, seen: set<Activation>, queue: seq<Item>, c: Closure)
    returns (r: Result<(set<Activation>, seq<Item>, Closure), LockError>)
    requires Consistent(index) && LoopInv(index, roots, seen, queue, c) && queue != []
    ensures r.Err? ==> r.error != MissingPackage && !Resolvable(index, roots)
    ensures r.Ok? ==> LoopInv(index, roots, r.value.0, r.value.1, r.value.2)
    ensures r.Ok? ==> || (r.value.0 == seen && |r.value.1| < |queue|)
                      || |Universe(index, roots) - r.value.0| < |Universe(index, roots) - seen|
  {
    var a := queue[0].activation;
    var c' := Visit(c, queue[0]);
    if a in seen {
      DropInv(index, roots, seen, queue, c);
      return Ok((seen, queue[1..], c'));
    }
    HeadIsLocked(index, roots, seen, queue);
    assert a.key in index.byKey;   // so the missing-package error is unreachable
    var more := Enqueue(index, Of(a.key), References(index, a));
    if more.Err? {
      Unresolvable(index, roots, seen, queue);
      return Err(more.error);
    }
    ActivateInv(index, roots, seen, queue, c, more.value);
    UnseenShrinks(Universe(index, roots), seen, a);
    return Ok((seen + {a}, queue[1..] + more.value, c'));
  }

  function Visit(c: Closure, item: Item): Closure {
    Closure(c.packages + {item.activation.key}, c.edges + {Edge(item.parent, item.activation.key)})
  }

  lemma HeadIsLocked(index: Index, roots: seq<Reference>, seen: set<Activation>, queue: seq<Item>)
    requires Consistent(index) && WorkInv(index, roots, seen, queue) && queue != []
    ensures queue[0].activation in Universe(index, roots) && queue[0].activation.key in index.byKey
  {
    SplitQueue(queue);
    assert queue[0].activation in seen + Pending(queue);
    KeyIsLocked(index, roots, queue[0].activation);
  }

  lemma DropInv(index: Index, roots: seq<Reference>, seen: set<Activation>, queue: seq<Item>, c: Closure)
    requires LoopInv(index, roots, seen, queue, c) && queue != [] && queue[0].activation in seen
    ensures LoopInv(index, roots, seen, queue[1..], Visit(c, queue[0]))
  {
    DropSeen(index, roots, seen, queue);
    VisitMovesEdge(c, queue);
    VisitSeen(c, seen, queue[0]);
  }

  lemma VisitSeen(c: Closure, seen: set<Activation>, item: Item)
    requires c.packages == PackagesOf(seen) && item.activation in seen
    ensures Visit(c, item).packages == PackagesOf(seen)
  {
  }

  /** Visiting the head of the queue turns its pending edge into a recorded one. */
  lemma VisitMovesEdge(c: Closure, queue: seq<Item>)
    requires queue != []
    ensures Visit(c, queue[0]).edges + EdgesOf(queue[1..]) == c.edges + EdgesOf(queue)
  {
    SplitQueue(queue);
  }

  lemma ActivateInv(index: Index, roots: seq<Reference>, seen: set<Activation>, queue: seq<Item>, c: Closure, items: seq<Item>)
    requires LoopInv(index, roots, seen, queue, c) && queue != []
    requires AllResolve(index, References(index, queue[0].activation))
    requires Pending(items) == Targets(index, References(index, queue[0].activation))
    requires EdgesOf(items) == EdgesFrom(Of(queue[0].activation.key), Targets(index, References(index, queue[0].activation)))
    ensures LoopInv(index, roots, seen + {queue[0].activation}, queue[1..] + items, Visit(c, queue[0]))
  {
    var a := queue[0].activation;
    Activate(index, roots, seen, queue, items);
    EdgesGrow(index, roots, seen, a, c.edges + EdgesOf(queue));
    VisitMovesEdge(c, queue);
    JoinQueues(queue[1..], items);
    assert Visit(c, queue[0]).edges + EdgesOf(queue[1..] + items) == c.edges + EdgesOf(queue) + EdgesOf(items);
    PackagesGrow(seen, a);
  }

  /** Every reference on the way stands for some package. */
  ghost predicate AllStand(index: Index, roots: seq<Reference>) {
    && (forall r :: r in roots ==> exists k :: Stands(index, r, k))
    && (forall a, r :: Reached(index, roots, a) && Follows(index, a, r) ==> exists k :: Stands(index, r, k))
  }

  lemma ResolveStands(index: Index, refs: seq<Reference>)
    requires Consistent(index)
    ensures AllResolve(index, refs) <==> forall r :: r in refs ==> exists k :: Stands(index, r, k)
  {
    forall r | r in refs ensures Resolve(index, r).Ok? <==> exists k :: Stands(index, r, k) {
      if Resolve(index, r).Ok? {
        ResolveTells(index, r, Resolve(index, r).value);
      } else {
        forall k ensures !Stands(index, r, k) {
          ResolveTells(index, r, k);
        }
      }
    }
  }

  lemma ActivationsStand(index: Index, roots: seq<Reference>, s: set<Activation>)
    requires Consistent(index) && IsLeast(index, roots, s)
    ensures AllReached(index, s) <==>
              forall a, r :: Reached(index, roots, a) && Follows(index, a, r) ==> exists k :: Stands(index, r, k)
  {
    LeastIsReached(index, roots, s);
    forall a: Activation, r: Reference ensures r in References(index, a) <==> Follows(index, a, r) {
      ReferencesTell(index, a, r);
    }
    forall a: Activation ensures AllResolve(index, References(index, a)) <==>
                        forall r :: r in References(index, a) ==> exists k :: Stands(index, r, k)
    {
      ResolveStands(index, References(index, a));
    }
  }

  /** There is a least fixed point: what is reached. */
  lemma LeastExists(index: Index, roots: seq<Reference>) returns (s: set<Activation>)
    requires Consistent(index)
    ensures IsLeast(index, roots, s)
  {
    var universe := Universe(index, roots);
    assert ClosedUnder(index, roots, universe) by {
      forall a ensures Targets(index, roots) <= universe && Targets(index, References(index, a)) <= universe {
        TargetsInUniverse(index, roots, a);
      }
    }
    s := set b | b in universe && Reached(index, roots, b);
    ReachedIsClosed(index, roots, universe, s);
    forall t | ClosedUnder(index, roots, t) ensures s <= t {
      forall b | b in s ensures b in t {
        var path :| Path(index, roots, path) && path[|path| - 1] == b;
        PathIsClosed(index, roots, t, path, |path| - 1);
      }
    }
  }

  lemma ResolvableStands(index: Index, roots: seq<Reference>)
    requires Consistent(index)
    ensures Resolvable(index, roots) <==> AllStand(index, roots)
  {
    ResolveStands(index, roots);
    var s := LeastExists(index, roots);
    ActivationsStand(index, roots, s);
    if Resolvable(index, roots) {
      var t :| IsLeast(index, roots, t) && AllReached(index, t);
      LeastIsUnique(index, roots, s, t);
    }
  }

  /** The package asks for the other one in some reference. */
  ghost predicate Asks(index: Index, roots: seq<Reference>, e: Edge) {
    match e.parent
    case Root => exists r :: r in roots && Stands(index, r, e.child)
    case Of(k) => exists a, r :: Reached(index, roots, a) && a.key == k && Follows(index, a, r) && Stands(index, r, e.child)
  }

  lemma EdgeAsks(index: Index, roots: seq<Reference>, s: set<Activation>, e: Edge)
    requires Consistent(index) && IsLeast(index, roots, s)
    ensures IsEdge(index, roots, s, e) <==> Asks(index, roots, e)
  {
    LeastIsReached(index, roots, s);
    match e.parent
    case Root =>
      RootEdgeAsks(index, roots, e);
    case Of(k) =>
      forall a: Activation, b: Activation ensures b in Targets(index, References(index, a)) <==> Leads(index, a, b) {
        TargetsTell(index, roots, a, b);
      }
      if Asks(index, roots, e) {
        var a, r :| Reached(index, roots, a) && a.key == k && Follows(index, a, r) && Stands(index, r, e.child);
        assert Leads(index, a, Activation(e.child, r.extras));
        assert Activation(e.child, r.extras) in Targets(index, References(index, a));
      }
  }

  lemma RootEdgeAsks(index: Index, roots: seq<Reference>, e: Edge)
    requires Consistent(index)
    ensures (exists b :: b in Targets(index, roots) && b.key == e.child) <==> exists r :: r in roots && Stands(index, r, e.child)
  {
    forall b: Activation ensures b in Targets(index, roots) <==> Starts(index, roots, b) {
      TargetsTell(index, roots, b, b);
    }
    if r :| r in roots && Stands(index, r, e.child) {
      assert Starts(index, roots, Activation(e.child, r.extras));
      assert Activation(e.child, r.extras) in Targets(index, roots);
    }
  }

  /** What a scope closure is of a lock: the packages that paths of references reach, and who asks for whom. */
  ghost predicate IsClosure(index: Index, roots: seq<Reference>, c: Closure) {
    && (forall k :: k in c.packages <==> Reaches(index, roots, k))
    && (forall e :: e in c.edges <==> Asks(index, roots, e))
  }

  lemma ClosureTells(index: Index, roots: seq<Reference>, s: set<Activation>, c: Closure)
    requires Consistent(index) && IsLeast(index, roots, s) && c.packages == PackagesOf(s)
    requires forall e :: e in c.edges <==> IsEdge(index, roots, s, e)
    ensures IsClosure(index, roots, c)
  {
    LeastIsReached(index, roots, s);
    forall e ensures e in c.edges <==> Asks(index, roots, e) {
      EdgeAsks(index, roots, s, e);
    }
  }

  /**
   `_scope_closure`: on any lock, cyclic or not, it ends; it fails exactly when some reference the
   closure reaches cannot be resolved; and otherwise it returns the packages and edges of the least
   fixed point, which is what paths of references reach.  The missing-package error cannot happen.
   */
  method ScopeClosure(index: Index, roots: seq<Reference>)
    returns (r: Result<Closure, LockError>, ghost activations: set<Activation>)
    requires Consistent(index)
    ensures r.Ok? ==> IsLeast(index, roots, activations) && r.value.packages == PackagesOf(activations)
    ensures r.Ok? ==> forall e :: e in r.value.edges <==> IsEdge(index, roots, activations, e)
    ensures r.Ok? ==> IsClosure(index, roots, r.value)
    ensures r.Ok? <==> AllStand(index, roots)
    ensures r.Err? ==> r.error != MissingPackage
    ensures r.Ok? ==> r.value.packages <= index.byKey.Keys
  {
    ResolvableStands(index, roots);
    activations := {};
    var first := Enqueue(index, Root, roots);
    if first.Err? {
      return Err(first.error), {};
    }
    StartWork(index, roots, first.value);
    var closed;
    closed, activations := WorkOff(index, roots, first.value);
    if closed.Ok? {
      EdgesComplete(index, roots, activations, closed.value.edges);
      ClosureTells(index, roots, activations, closed.value);
    }
    return closed, activations;
  }

  /** Work through the queue until it is empty. */
  method WorkOff(index: Index, roots: seq<Reference>, first: seq<Item>)
    returns (r: Result<Closure, LockError>, ghost activations: set<Activation>)
    requires Consistent(index) && LoopInv(index, roots, {}, first, Closure({}, {}))
    ensures r.Ok? ==> Worked(index, roots, activations, r.value)
    ensures r.Err? ==> r.error != MissingPackage && !Resolvable(index, roots)
  {
    var queue, seen, closure := first, {}, Closure({}, {});
    while queue != []
      invariant LoopInv(index, roots, seen, queue, closure)
      decreases |Universe(index, roots) - seen|, |queue|
    {
      var next := Process(index, roots, seen, queue, closure);
      if next.Err? {
        return Err(next.error), {};
      }
      seen, queue, closure := next.value.0, next.value.1, next.value.2;
    }
    FinishWork(index, roots, seen, queue, closure);
    return Ok(closure), seen;
  }

  /** The queue is empty. */
  ghost predicate Worked(index: Index, roots: seq<Reference>, seen: set<Activation>, c: Closure) {
    && IsLeast(index, roots, seen) && Resolvable(index, roots)
    && c.packages == PackagesOf(seen) && PackagesOf(seen) <= index.byKey.Keys
    && EdgeInv(index, roots, seen, c.edges)
  }

  ghost predicate AllReached(index: Index, s: set<Activation>) {
    forall a :: a in s ==> AllResolve(index, References(index, a))
  }

  /** Everything the closure reaches can be resolved. */
  ghost predicate Resolvable(index: Index, roots: seq<Reference>) {
    AllResolve(index, roots) && exists s :: IsLeast(index, roots, s) && AllReached(index, s)
  }

  lemma StartWork(index: Index, roots: seq<Reference>, queue: seq<Item>)
    requires AllResolve(index, roots) && Pending(queue) == Targets(index, roots)
    requires EdgesOf(queue) == EdgesFrom(Root, Targets(index, roots))
    ensures LoopInv(index, roots, {}, queue, Closure({}, {}))
  {
    assert {} + EdgesOf(queue) == EdgesOf(queue);
    forall b | b in Targets(index, roots) ensures b in Universe(index, roots) {
      var r :| r in roots && Resolve(index, r).Ok? && b == Activation(Resolve(index, r).value, r.extras);
      assert r in AllReferences(index, roots);
    }
  }

  lemma FinishWork(index: Index, roots: seq<Reference>, seen: set<Activation>, queue: seq<Item>, c: Closure)
    requires Consistent(index) && LoopInv(index, roots, seen, queue, c) && queue == []
    ensures Worked(index, roots, seen, c)
  {
    assert c.edges + EdgesOf(queue) == c.edges;
    ClosedIsLeast(index, roots, seen, queue);
  }

  lemma ClosedIsLeast(index: Index, roots: seq<Reference>, seen: set<Activation>, queue: seq<Item>)
    requires Consistent(index) && WorkInv(index, roots, seen, queue) && queue == []
    ensures IsLeast(index, roots, seen) && Resolvable(index, roots)
    ensures PackagesOf(seen) <= index.byKey.Keys
  {
    assert seen + Pending(queue) == seen;
    assert IsLeast(index, roots, seen) && AllReached(index, seen);
    forall a | a in seen ensures a.key in index.byKey {
      KeyIsLocked(index, roots, a);
    }
  }

  lemma KeyIsLocked(index: Index, roots: seq<Reference>, a: Activation)
    requires Consistent(index) && a in Universe(index, roots)
    ensures a.key in index.byKey
  {
    var r :| r in AllReferences(index, roots) && Resolve(index, r).Ok? && a == Activation(Resolve(index, r).value, r.extras);
  }

  lemma Unresolvable(index: Index, roots: seq<Reference>, seen: set<Activation>, queue: seq<Item>)
    requires WorkInv(index, roots, seen, queue) && queue != []
    requires !AllResolve(index, References(index, queue[0].activation))
    ensures !Resolvable(index, roots)
  {
    SplitQueue(queue);
    forall s | IsLeast(index, roots, s) ensures !AllReached(index, s) {
      assert seen + Pending(queue) <= s;
      assert queue[0].activation in s;
    }
  }

  lemma UnseenShrinks(universe: set<Activation>, seen: set<Activation>, a: Activation)
    requires a in universe && a !in seen
    ensures |universe - (seen + {a})| < |universe - seen|
  {
    assert universe - (seen + {a}) == (universe - seen) - {a};
  }

  // ---- Scope labels ------------------------------------------------------------------------

  datatype Scope = Scope(name: string, roots: seq<Reference>)

  const LOCK_ONLY := "lock-only"

  lemma ReachesLeast(index: Index, roots: seq<Reference>, s: set<Activation>, k: Key)
    requires Consistent(index) && IsLeast(index, roots, s)
    ensures Reaches(index, roots, k) <==> k in PackagesOf(s)
  {
    LeastIsReached(index, roots, s);
  }

  function Labels(labels: map<Key, set<string>>, k: Key): set<string> {
    if k in labels then labels[k] else {}
  }

  /** Add one label to every package of a closure. */
  method Mark(before: map<Key, set<string>>, packages: set<Key>, name: string) returns (labels: map<Key, set<string>>)
    ensures labels.Keys == before.Keys + packages
    ensures forall k :: Labels(labels, k) == Labels(before, k) + (if k in packages then {name} else {})
  {
    labels := before;
    var todo := packages;
    while todo != {}
      invariant todo <= packages && labels.Keys == before.Keys + (packages - todo)
      invariant forall k :: Labels(labels, k) == Labels(before, k) + (if k in packages - todo then {name} else {})
      decreases todo
    {
      var k :| k in todo;
      labels := labels[k := Labels(labels, k) + {name}];
      todo := todo - {k};
    }
  }

  /** One of the closures computed so far belongs to a scope called `l` and holds `k`. */
  ghost predicate Tagged(scopes: seq<Scope>, reach: seq<set<Key>>, k: Key, l: string)
    requires |reach| <= |scopes|
  {
    exists i :: 0 <= i < |reach| && scopes[i].name == l && k in reach[i]
  }

  ghost predicate Labelled(scopes: seq<Scope>, reach: seq<set<Key>>, labels: map<Key, set<string>>)
    requires |reach| <= |scopes|
  {
    && (forall k, l :: l in Labels(labels, k) <==> Tagged(scopes, reach, k, l))
    && (forall k :: k in labels ==> Labels(labels, k) != {})
  }

  lemma LabelledGrows(scopes: seq<Scope>, reach: seq<set<Key>>, before: map<Key, set<string>>,
                      packages: set<Key>, after: map<Key, set<string>>)
    requires |reach| < |scopes| && Labelled(scopes, reach, before)
    requires after.Keys == before.Keys + packages
    requires forall k :: Labels(after, k) == Labels(before, k) + (if k in packages then {scopes[|reach|].name} else {})
    ensures Labelled(scopes, reach + [packages], after)
  {
    var n := |reach|;
    forall k, l ensures l in Labels(after, k) <==> Tagged(scopes, reach + [packages], k, l) {
      assert l in Labels(before, k) <==> Tagged(scopes, reach, k, l);
      if Tagged(scopes, reach, k, l) {
        var i :| 0 <= i < n && scopes[i].name == l && k in reach[i];
        assert (reach + [packages])[i] == reach[i];
      }
      if l == scopes[n].name && k in packages {
        assert (reach + [packages])[n] == packages;
      }
    }
    forall k | k in after ensures Labels(after, k) != {} {
      if k in packages {
        assert scopes[n].name in Labels(after, k);
      }
    }
  }

  /** The closures are what the scopes reach. */
  ghost predicate AreReached(index: Index, scopes: seq<Scope>, reach: seq<set<Key>>) {
    && |reach| <= |scopes|
    && (forall i, k :: 0 <= i < |reach| ==> (k in reach[i] <==> Reaches(index, scopes[i].roots, k)))
    && (forall i :: 0 <= i < |reach| ==> reach[i] <= index.byKey.Keys)
  }

  lemma AreReachedGrows(index: Index, scopes: seq<Scope>, reach: seq<set<Key>>, s: set<Activation>)
    requires |reach| < |scopes| && AreReached(index, scopes, reach) && Consistent(index)
    requires IsLeast(index, scopes[|reach|].roots, s) && PackagesOf(s) <= index.byKey.Keys
    ensures AreReached(index, scopes, reach + [PackagesOf(s)])
  {
    forall k ensures k in PackagesOf(s) <==> Reaches(index, scopes[|reach|].roots, k) {
      ReachesLeast(index, scopes[|reach|].roots, s, k);
    }
  }

  /** No declared scope reaches the package. */
  ghost predicate Unreached(index: Index, scopes: seq<Scope>, k: Key) {
    forall i :: 0 <= i < |scopes| ==> !Reaches(index, scopes[i].roots, k)
  }

  /** A scope called `l` reaches the package. */
  ghost predicate ReachedBy(index: Index, scopes: seq<Scope>, k: Key, l: string) {
    exists i :: 0 <= i < |scopes| && scopes[i].name == l && Reaches(index, scopes[i].roots, k)
  }

  /** Exact labels: declared scopes by reachability, `lock-only` for the rest. */
  ghost predicate ExactLabels(index: Index, scopes: seq<Scope>, labels: map<Key, set<string>>) {
    && labels.Keys == index.byKey.Keys
    && (forall k :: k in labels ==> (labels[k] == {LOCK_ONLY} <==> Unreached(index, scopes, k)))
    && (forall k, l :: k in labels && l != LOCK_ONLY ==> (l in labels[k] <==> ReachedBy(index, scopes, k, l)))
  }

  lemma TaggedIsReached(index: Index, scopes: seq<Scope>, reach: seq<set<Key>>, k: Key, l: string)
    requires |reach| == |scopes| && AreReached(index, scopes, reach)
    ensures Tagged(scopes, reach, k, l) <==> ReachedBy(index, scopes, k, l)
  {
    if Tagged(scopes, reach, k, l) {
      var i :| 0 <= i < |reach| && scopes[i].name == l && k in reach[i];
      assert Reaches(index, scopes[i].roots, k);
    }
    if ReachedBy(index, scopes, k, l) {
      var i :| 0 <= i < |scopes| && scopes[i].name == l && Reaches(index, scopes[i].roots, k);
      assert k in reach[i];
    }
  }

  lemma UnlabelledIsUnreached(index: Index, scopes: seq<Scope>, reach: seq<set<Key>>, labels: map<Key, set<string>>, k: Key)
    requires |reach| == |scopes| && AreReached(index, scopes, reach) && Labelled(scopes, reach, labels)
    ensures k !in labels <==> Unreached(index, scopes, k)
  {
    if k in labels {
      var l :| l in Labels(labels, k);
      assert Tagged(scopes, reach, k, l);
      var i :| 0 <= i < |reach| && scopes[i].name == l && k in reach[i];
      assert Reaches(index, scopes[i].roots, k);
    } else {
      forall i | 0 <= i < |scopes| ensures !Reaches(index, scopes[i].roots, k) {
        assert scopes[i].name !in Labels(labels, k);
        assert !Tagged(scopes, reach, k, scopes[i].name);
        assert k !in reach[i];
      }
    }
  }

  lemma FinalLabel(index: Index, scopes: seq<Scope>, reach: seq<set<Key>>, labels: map<Key, set<string>>,
                   k: Key, final: set<string>)
    requires |reach| == |scopes| && AreReached(index, scopes, reach) && Labelled(scopes, reach, labels)
    requires forall i :: 0 <= i < |scopes| ==> scopes[i].name != LOCK_ONLY
    requires final == Labels(labels, k) + (if k in labels then {} else {LOCK_ONLY})
    ensures final == {LOCK_ONLY} <==> Unreached(index, scopes, k)
    ensures forall l :: l != LOCK_ONLY ==> (l in final <==> ReachedBy(index, scopes, k, l))
  {
    UnlabelledIsUnreached(index, scopes, reach, labels, k);
    assert LOCK_ONLY !in Labels(labels, k) by {
      assert !Tagged(scopes, reach, k, LOCK_ONLY);
    }
    forall l | l != LOCK_ONLY ensures l in final <==> ReachedBy(index, scopes, k, l) {
      assert l in Labels(labels, k) <==> Tagged(scopes, reach, k, l);
      TaggedIsReached(index, scopes, reach, k, l);
    }
  }

  lemma FinalLabels(index: Index, scopes: seq<Scope>, reach: seq<set<Key>>, labels: map<Key, set<string>>,
                    all: map<Key, set<string>>)
    requires |reach| == |scopes| && AreReached(index, scopes, reach) && Labelled(scopes, reach, labels)
    requires forall i :: 0 <= i < |scopes| ==> scopes[i].name != LOCK_ONLY
    requires all.Keys == index.byKey.Keys
    requires forall k :: Labels(all, k) == Labels(labels, k) + (if k in index.byKey.Keys - labels.Keys then {LOCK_ONLY} else {})
    ensures ExactLabels(index, scopes, all)
  {
    forall k | k in all
      ensures all[k] == {LOCK_ONLY} <==> Unreached(index, scopes, k)
      ensures forall l :: l != LOCK_ONLY ==> (l in all[k] <==> ReachedBy(index, scopes, k, l))
    {
      assert Labels(all, k) == all[k];
      FinalLabel(index, scopes, reach, labels, k, all[k]);
    }
  }

  /**
   The scope labels of all locked packages: a package carries a declared scope exactly when that
   scope's closure reaches it, and is `lock-only` exactly when no declared scope does.
   */
  method LabelScopes(index: Index, scopes: seq<Scope>) returns (r: Result<map<Key, set<string>>, LockError>)
    requires Consistent(index) && forall i :: 0 <= i < |scopes| ==> scopes[i].name != LOCK_ONLY
    ensures r.Ok? <==> forall i :: 0 <= i < |scopes| ==> AllStand(index, scopes[i].roots)
    ensures r.Ok? ==> ExactLabels(index, scopes, r.value)
  {
    var labels: map<Key, set<string>> := map[];
    ghost var reach: seq<set<Key>> := [];
    for i := 0 to |scopes|
      invariant |reach| == i && AreReached(index, scopes, reach)
      invariant Labelled(scopes, reach, labels) && labels.Keys <= index.byKey.Keys
      invariant forall j :: 0 <= j < i ==> AllStand(index, scopes[j].roots)
    {
      var closure;
      ghost var s;
      closure, s := ScopeClosure(index, scopes[i].roots);
      if closure.Err? {
        return Err(closure.error);
      }
      var marked := Mark(labels, closure.value.packages, scopes[i].name);
      LabelledGrows(scopes, reach, labels, closure.value.packages, marked);
      AreReachedGrows(index, scopes, reach, s);
      labels, reach := marked, reach + [closure.value.packages];
    }
    var all := Mark(labels, index.byKey.Keys - labels.Keys, LOCK_ONLY);
    assert labels.Keys + (index.byKey.Keys - labels.Keys) == index.byKey.Keys;
    FinalLabels(index, scopes, reach, labels, all);
    return Ok(all);
  }
}
