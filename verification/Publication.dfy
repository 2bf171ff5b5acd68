/**
 Concurrent publication into the content-addressed store (`_write_atomic` of `src/fetech/storage.py`)
 as interleaved file-system steps.  A put checks the digest path, stages its body in a private file,
 hard-links that file to the digest path, verifies what the path holds, and removes the private name.
 Any put may stop for good between any two steps.
 */
module Publication {
  import opened Common
  import opened ContentStore

  datatype Phase =
    | Checking                              // the first look at the digest path
    | Creating
    | Writing(inode: nat, written: nat)     // bytes on the staging file so far
    | Linking(inode: nat, attempt: nat)
    | Verifying(inode: nat, attempt: nat)
    | Succeeded
    | Rejected

  datatype Put = Put(body: Bytes, phase: Phase)

  /** Digest paths, file contents by inode, and the puts in progress. */
  datatype State = State(paths: map<Digest, nat>, inodes: map<nat, Bytes>, puts: map<nat, Put>)

  datatype Step =
    | Begin(p: nat, body: Bytes)
    | Check(p: nat)
    | Create(p: nat, inode: nat)
    | Write(p: nat, count: nat)
    | Link(p: nat)
    | Verify(p: nat)
    | Crash(p: nat)

  /** Whether the digest path holds exactly the body. */
  predicate Holds(hash: Hash, s: State, body: Bytes) {
    && hash(body) in s.paths && s.paths[hash(body)] in s.inodes
    && s.inodes[s.paths[hash(body)]] == body
  }

  predicate Enabled(hash: Hash, s: State, step: Step) {
    match step
    case Begin(p, _) => p !in s.puts
    case Check(p) => p in s.puts && s.puts[p].phase.Checking?
    case Create(p, inode) => p in s.puts && s.puts[p].phase.Creating? && inode !in s.inodes
    case Write(p, count) =>
      && p in s.puts && s.puts[p].phase.Writing? && s.puts[p].phase.inode in s.inodes
      && s.puts[p].phase.written + count <= |s.puts[p].body|
    case Link(p) => p in s.puts && s.puts[p].phase.Linking?
    case Verify(p) => p in s.puts && s.puts[p].phase.Verifying?
    case Crash(p) => p in s.puts
  }

  function Move(s: State, p: nat, phase: Phase): State
    requires p in s.puts
  {
    s.(puts := s.puts[p := s.puts[p].(phase := phase)])
  }

  function Next(hash: Hash, s: State, step: Step): State
    requires Enabled(hash, s, step)
  {
    match step
    case Begin(p, body) => s.(puts := s.puts[p := Put(body, Checking)])
    case Check(p) =>
      if hash(s.puts[p].body) !in s.paths then Move(s, p, Creating)
      else if Holds(hash, s, s.puts[p].body) then Move(s, p, Succeeded)
      else Move(s, p, Rejected)
    case Create(p, inode) => Move(s.(inodes := s.inodes[inode := []]), p, Writing(inode, 0))
    case Write(p, count) =>
      var put := s.puts[p];
      var written := put.phase.written + count;
      Move(s.(inodes := s.inodes[put.phase.inode := put.body[..written]]), p,
           if written == |put.body| then Linking(put.phase.inode, 0) else Writing(put.phase.inode, written))
    case Link(p) =>
      var put := s.puts[p];
      var linked := if hash(put.body) in s.paths then s else s.(paths := s.paths[hash(put.body) := put.phase.inode]);
      Move(linked, p, Verifying(put.phase.inode, put.phase.attempt))
    case Verify(p) =>
      var put := s.puts[p];
      if hash(put.body) !in s.paths then
        Move(s, p, if put.phase.attempt == 0 then Linking(put.phase.inode, 1) else Rejected)
      else if Holds(hash, s, put.body) then Move(s, p, Succeeded)
      else Move(s, p, Rejected)
    case Crash(p) => s.(puts := s.puts - {p})
  }

  const EMPTY := State(map[], map[], map[])

  ghost predicate IsRun(hash: Hash, states: seq<State>, steps: seq<Step>) {
    && |states| == |steps| + 1
    && states[0] == EMPTY
    && (forall i :: 0 <= i < |steps| ==>
          Enabled(hash, states[i], steps[i]) && states[i + 1] == Next(hash, states[i], steps[i]))
  }

  // ---- Invariant ---------------------------------------------------------------------------

  predicate Staging(phase: Phase) {
    phase.Writing? || phase.Linking? || phase.Verifying?
  }

  /** Every digest path names a complete file with that digest. */
  ghost predicate PathsInv(hash: Hash, s: State) {
    forall d :: d in s.paths ==> s.paths[d] in s.inodes && hash(s.inodes[s.paths[d]]) == d
  }

  /** A staging file belongs to one put, and is published only once it is complete. */
  ghost predicate PutsInv(hash: Hash, s: State) {
    && (forall p :: p in s.puts && Staging(s.puts[p].phase) ==> s.puts[p].phase.inode in s.inodes)
    && (forall p, q :: p in s.puts && q in s.puts && p != q && Staging(s.puts[p].phase) && Staging(s.puts[q].phase) ==>
          s.puts[p].phase.inode != s.puts[q].phase.inode)
    && (forall p, d :: p in s.puts && s.puts[p].phase.Writing? && d in s.paths ==> s.paths[d] != s.puts[p].phase.inode)
    && (forall p :: p in s.puts && (s.puts[p].phase.Linking? || s.puts[p].phase.Verifying?) ==>
          s.inodes[s.puts[p].phase.inode] == s.puts[p].body)
    && (forall p :: p in s.puts && s.puts[p].phase.Verifying? ==> hash(s.puts[p].body) in s.paths)
    && (forall p :: p in s.puts && s.puts[p].phase.Succeeded? ==> Holds(hash, s, s.puts[p].body))
  }

  ghost predicate Inv(hash: Hash, s: State) {
    PathsInv(hash, s) && PutsInv(hash, s)
  }

  /** What a digest path holds never changes and never disappears. */
  ghost predicate Keeps(s: State, t: State) {
    forall d :: d in s.paths && s.paths[d] in s.inodes ==>
      && d in t.paths && t.paths[d] == s.paths[d] && t.paths[d] in t.inodes
      && t.inodes[t.paths[d]] == s.inodes[s.paths[d]]
  }

  /** Steps that only move a put along: nothing in the file system changes. */
  lemma MoveKeeps(hash: Hash, s: State, p: nat, phase: Phase)
    requires Inv(hash, s) && p in s.puts
    requires !phase.Writing? && (phase.Linking? || phase.Verifying? ==>
               Staging(s.puts[p].phase) && !s.puts[p].phase.Writing? && phase.inode == s.puts[p].phase.inode)
    requires phase.Verifying? ==> hash(s.puts[p].body) in s.paths
    requires phase.Succeeded? ==> Holds(hash, s, s.puts[p].body)
    ensures Inv(hash, Move(s, p, phase)) && Keeps(s, Move(s, p, phase))
  {
  }

  lemma BeginKeeps(hash: Hash, s: State, p: nat, body: Bytes)
    requires Inv(hash, s) && p !in s.puts
    ensures Inv(hash, s.(puts := s.puts[p := Put(body, Checking)]))
  {
  }

  lemma CrashKeeps(hash: Hash, s: State, p: nat)
    requires Inv(hash, s)
    ensures Inv(hash, s.(puts := s.puts - {p}))
  {
  }

  lemma CreateKeeps(hash: Hash, s: State, p: nat, inode: nat)
    requires Inv(hash, s) && Enabled(hash, s, Create(p, inode))
    ensures Inv(hash, Next(hash, s, Create(p, inode))) && Keeps(s, Next(hash, s, Create(p, inode)))
  {
  }

  lemma WriteKeeps(hash: Hash, s: State, p: nat, count: nat)
    requires Inv(hash, s) && Enabled(hash, s, Write(p, count))
    ensures Inv(hash, Next(hash, s, Write(p, count))) && Keeps(s, Next(hash, s, Write(p, count)))
  {
    WriteKeepsPaths(hash, s, p, count);
    WriteKeepsPuts(hash, s, p, count);
  }

  lemma WriteKeepsPaths(hash: Hash, s: State, p: nat, count: nat)
    requires Inv(hash, s) && Enabled(hash, s, Write(p, count))
    ensures PathsInv(hash, Next(hash, s, Write(p, count))) && Keeps(s, Next(hash, s, Write(p, count)))
  {
  }

  lemma WriteKeepsPuts(hash: Hash, s: State, p: nat, count: nat)
    requires Inv(hash, s) && Enabled(hash, s, Write(p, count))
    ensures PutsInv(hash, Next(hash, s, Write(p, count)))
  {
    var put := s.puts[p];
    assert put.body[..|put.body|] == put.body;
  }

  /** Linking a complete staging file under its own digest, if the path is free. */
  lemma PublishKeeps(hash: Hash, s: State, p: nat, linked: State)
    requires Inv(hash, s) && Enabled(hash, s, Link(p))
    requires var put := s.puts[p];
             linked == if hash(put.body) in s.paths then s else s.(paths := s.paths[hash(put.body) := put.phase.inode])
    ensures Inv(hash, linked) && Keeps(s, linked)
  {
  }

  lemma LinkKeeps(hash: Hash, s: State, p: nat)
    requires Inv(hash, s) && Enabled(hash, s, Link(p))
    ensures Inv(hash, Next(hash, s, Link(p))) && Keeps(s, Next(hash, s, Link(p)))
  {
    var put := s.puts[p];
    var linked := if hash(put.body) in s.paths then s else s.(paths := s.paths[hash(put.body) := put.phase.inode]);
    PublishKeeps(hash, s, p, linked);
    MoveKeeps(hash, linked, p, Verifying(put.phase.inode, put.phase.attempt));
  }

  lemma NextKeeps(hash: Hash, s: State, step: Step)
    requires Inv(hash, s) && Enabled(hash, s, step)
    ensures Inv(hash, Next(hash, s, step)) && Keeps(s, Next(hash, s, step))
  {
    match step
    case Begin(p, body) => BeginKeeps(hash, s, p, body);
    case Check(p) =>
      MoveKeeps(hash, s, p, if hash(s.puts[p].body) !in s.paths then Creating
                            else if Holds(hash, s, s.puts[p].body) then Succeeded else Rejected);
    case Create(p, inode) => CreateKeeps(hash, s, p, inode);
    case Write(p, count) => WriteKeeps(hash, s, p, count);
    case Link(p) => LinkKeeps(hash, s, p);
    case Verify(p) =>
      MoveKeeps(hash, s, p, if Holds(hash, s, s.puts[p].body) then Succeeded else Rejected);
    case Crash(p) => CrashKeeps(hash, s, p);
  }

  lemma {:induction false} RunsKeep(hash: Hash, states: seq<State>, steps: seq<Step>, n: nat)
    requires IsRun(hash, states, steps) && n <= |steps|
    ensures Inv(hash, states[n])
  {
    if n > 0 {
      RunsKeep(hash, states, steps, n - 1);
      NextKeeps(hash, states[n - 1], steps[n - 1]);
    }
  }

  // ---- Theorems ----------------------------------------------------------------------------

  /**
   Immutability: at every point of every interleaving, with puts stopping anywhere, a digest path is
   absent or names a complete body with that digest, and later states hold the same bytes there.
   */
  lemma {:induction false} PathsAreImmutable(hash: Hash, states: seq<State>, steps: seq<Step>, i: nat, j: nat, d: Digest)
    requires IsRun(hash, states, steps) && i <= j <= |steps| && d in states[i].paths
    ensures states[i].paths[d] in states[i].inodes && hash(states[i].inodes[states[i].paths[d]]) == d
    ensures d in states[j].paths && states[j].paths[d] in states[j].inodes
    ensures states[j].inodes[states[j].paths[d]] == states[i].inodes[states[i].paths[d]]
    decreases j
  {
    RunsKeep(hash, states, steps, i);
    if i < j {
      PathsAreImmutable(hash, states, steps, i, j - 1, d);
      RunsKeep(hash, states, steps, j - 1);
      NextKeeps(hash, states[j - 1], steps[j - 1]);
    }
  }

  /** Bytes a reader gets from the digest path of a state. */
  function Stored(s: State, d: Digest): Option<Bytes> {
    if d in s.paths && s.paths[d] in s.inodes then Some(s.inodes[s.paths[d]]) else None
  }

  /** Once a put of `body` has succeeded, its digest path holds exactly `body` from then on. */
  lemma PutThenGet(hash: Hash, states: seq<State>, steps: seq<Step>, i: nat, j: nat, p: nat)
    requires IsRun(hash, states, steps) && i <= j <= |steps|
    requires p in states[i].puts && states[i].puts[p].phase.Succeeded?
    ensures Stored(states[j], hash(states[i].puts[p].body)) == Some(states[i].puts[p].body)
  {
    RunsKeep(hash, states, steps, i);
    PathsAreImmutable(hash, states, steps, i, j, hash(states[i].puts[p].body));
  }

  /** Two bodies with the same digest cannot both be stored: the hash may collide, the store may not. */
  lemma NoTwoBodies(hash: Hash, states: seq<State>, steps: seq<Step>, i: nat, j: nat, p: nat, q: nat)
    requires IsRun(hash, states, steps) && i <= j <= |steps|
    requires p in states[i].puts && states[i].puts[p].phase.Succeeded?
    requires q in states[j].puts && states[j].puts[q].phase.Succeeded?
    requires hash(states[i].puts[p].body) == hash(states[j].puts[q].body)
    ensures states[i].puts[p].body == states[j].puts[q].body
  {
    PutThenGet(hash, states, steps, i, j, p);
    RunsKeep(hash, states, steps, j);
  }

  /** A put that reaches its verification succeeds unless its digest path holds a colliding body. */
  lemma VerificationDecides(hash: Hash, states: seq<State>, steps: seq<Step>, i: nat, p: nat)
    requires IsRun(hash, states, steps) && i <= |steps| && Enabled(hash, states[i], Verify(p))
    ensures var body := states[i].puts[p].body;
            var phase := Next(hash, states[i], Verify(p)).puts[p].phase;
            && (phase == Succeeded <==> Stored(states[i], hash(body)) == Some(body))
            && (phase == Rejected <==> exists other :: other != body && hash(other) == hash(body)
                                                       && Stored(states[i], hash(body)) == Some(other))
  {
    RunsKeep(hash, states, steps, i);
    var s := states[i];
    var body := s.puts[p].body;
    var d := hash(body);
    assert d in s.paths && s.paths[d] in s.inodes;
    var stored := s.inodes[s.paths[d]];
    assert hash(stored) == d;
    assert Stored(s, d) == Some(stored);
  }

  /** What the digest path holds at some point of the run from `j` on. */
  ghost predicate HeldSince(states: seq<State>, j: nat, k: nat, d: Digest, content: Bytes) {
    j <= k < |states| && Stored(states[k], d) == Some(content)
  }

  /** Every read happens at some point of the run from `j` on, each at its own. */
  ghost predicate Observes(states: seq<State>, j: nat, d: Digest, read: Reader) {
    forall total: nat, want: nat :: want > 0 ==> Seen(states, j, d, total, read(total, want))
  }

  ghost predicate Seen(states: seq<State>, j: nat, d: Digest, total: nat, chunk: Bytes) {
    exists k, content :: HeldSince(states, j, k, d, content) && Answers(content, total, chunk)
  }

  ghost predicate SizeSeen(states: seq<State>, j: nat, d: Digest, size: nat) {
    exists k, content :: HeldSince(states, j, k, d, content) && size == |content|
  }

  /** Once the digest path is there, whatever is seen of it later is what it holds now. */
  lemma HeldIsSame(hash: Hash, states: seq<State>, steps: seq<Step>, j: nat, d: Digest, k: nat, content: Bytes)
    requires IsRun(hash, states, steps) && j <= |steps| && d in states[j].paths && HeldSince(states, j, k, d, content)
    ensures Stored(states[j], d) == Some(content)
  {
    PathsAreImmutable(hash, states, steps, j, k, d);
  }

  lemma SizeIsSame(hash: Hash, states: seq<State>, steps: seq<Step>, j: nat, d: Digest, size: nat)
    requires IsRun(hash, states, steps) && j <= |steps| && d in states[j].paths && SizeSeen(states, j, d, size)
    ensures Stored(states[j], d).Some? && size == |Stored(states[j], d).value|
  {
    var k, content :| HeldSince(states, j, k, d, content) && size == |content|;
    HeldIsSame(hash, states, steps, j, d, k, content);
  }

  /** Reads spread over the run see one steady file, because the path never changes. */
  lemma ObservedIsSteady(hash: Hash, states: seq<State>, steps: seq<Step>, j: nat, d: Digest, read: Reader)
    requires IsRun(hash, states, steps) && j <= |steps| && d in states[j].paths && Observes(states, j, d, read)
    ensures Stored(states[j], d).Some? && Steady(read, Stored(states[j], d).value)
  {
    PathsAreImmutable(hash, states, steps, j, j, d);
    var stored := Stored(states[j], d).value;
    forall total: nat, want: nat | want > 0
      ensures Answers(stored, total, read(total, want))
    {
      assert Seen(states, j, d, total, read(total, want));
      var k, content :| HeldSince(states, j, k, d, content) && Answers(content, total, read(total, want));
      HeldIsSame(hash, states, steps, j, d, k, content);
    }
  }

  /**
   The verification of a put is not atomic: its stat calls and reads each see the path at some point of the
   run from `j` on, where the path was there already.  It decides all the same as the steps `Check` and
   `Verify` do, at `j` as at any later point.
   */
  method VerifyOverTime(hash: Hash, ghost states: seq<State>, ghost steps: seq<Step>, ghost j: nat,
                        body: Bytes, size: nat, read: Reader)
    returns (r: Result<(), StoreError>)
    requires IsRun(hash, states, steps) && j <= |steps| && hash(body) in states[j].paths
    requires Bounded(read) && Observes(states, j, hash(body), read) && SizeSeen(states, j, hash(body), size)
    ensures forall k :: j <= k <= |steps| ==> (r.Ok? <==> Holds(hash, states[k], body))
    ensures forall k, p :: j <= k <= |steps| && p in states[k].puts && states[k].puts[p].body == body ==>
              Decided(hash, states[k], p, r.Ok?)
    ensures r.Err? ==> r.error == Integrity
  {
    var d := hash(body);
    ObservedIsSteady(hash, states, steps, j, d, read);
    SizeIsSame(hash, states, steps, j, d, size);
    r := VerifyExisting(hash, File(size), body, d, read, Stored(states[j], d).value);
    forall k | j <= k <= |steps|
      ensures d in states[k].paths && (r.Ok? <==> Holds(hash, states[k], body))
    {
      PathsAreImmutable(hash, states, steps, j, k, d);
    }
  }

  /** Both steps that look at the digest path end the put as `ok` says. */
  predicate Decided(hash: Hash, s: State, p: nat, ok: bool)
    requires p in s.puts
  {
    var phase := if ok then Succeeded else Rejected;
    && (Enabled(hash, s, Check(p)) ==> Next(hash, s, Check(p)).puts[p].phase == phase)
    && (Enabled(hash, s, Verify(p)) ==> Next(hash, s, Verify(p)).puts[p].phase == phase)
  }

  /**
   A successful put, then a verified read whose stat calls and reads happen at any later points of the
   run, with other puts going on in between: it returns the body itself whenever the bound admits it.
   */
  method GetAfterPut(hash: Hash, ghost states: seq<State>, ghost steps: seq<Step>, ghost i: nat, ghost j: nat, ghost p: nat,
                     digest: Digest, maximum: Option<int>, size: nat, read: Reader, finalSize: nat)
    returns (r: Result<Bytes, StoreError>)
    requires IsRun(hash, states, steps) && i <= j <= |steps|
    requires p in states[i].puts && states[i].puts[p].phase.Succeeded? && digest == hash(states[i].puts[p].body)
    requires Bounded(read) && Observes(states, j, digest, read)
    requires SizeSeen(states, j, digest, size) && SizeSeen(states, j, digest, finalSize)
    ensures r.Ok? ==> r.value == states[i].puts[p].body
    ensures r.Ok? <==> maximum.None? || |states[i].puts[p].body| <= maximum.value
  {
    PutThenGet(hash, states, steps, i, j, p);
    ObservedIsSteady(hash, states, steps, j, digest, read);
    SizeIsSame(hash, states, steps, j, digest, size);
    SizeIsSame(hash, states, steps, j, digest, finalSize);
    var consumed;
    r, consumed := ReadVerified(hash, digest, maximum, File(size), read, finalSize, states[i].puts[p].body);
  }
}
