/** Delivery guarantees of `EventLedger.stream` over every interleaving. */
module LedgerProofs {
  import opened Common
  import opened LedgerModel

  predicate Distinct(events: seq<Event>) {
    forall i, j :: 0 <= i < j < |events| ==> events[i].id != events[j].id
  }

  // ---- Invariants --------------------------------------------------------------------------

  /** Rows have unique identities, and each is published or still in flight. */
  ghost predicate LogInv(s: State) {
    && Distinct(s.shared.rows)
    && (forall w :: w in s.inflight ==> s.inflight[w] in s.shared.rows && s.inflight[w] !in s.published)
    && (forall w, v :: w in s.inflight && v in s.inflight && w != v ==> s.inflight[w] != s.inflight[v])
    && (forall e :: e in s.published ==> e in s.shared.rows)
    && (forall e :: e in s.shared.rows ==> e in s.published || e in s.inflight.Values)
    && (s.finish != NotStarted <==> s.shared.run == Some(Finished))
    && (s.finish == NotStarted ==> !s.late)
    && (!s.late && s.finish != NotStarted ==> s.inflight == map[])
  }

  /** Nothing is yielded twice, and nothing is yielded that was not committed. */
  ghost predicate YieldInv(rows: seq<Event>, c: Cursor) {
    && c.seen == Ids(c.yielded)
    && Distinct(c.yielded + c.backlog)
    && (forall e :: e in c.yielded + c.backlog ==> e in rows)
  }

  /** Once the rows were read, every row is yielded, waiting to be yielded, queued, or in flight. */
  ghost predicate Covered(s: State, c: Cursor, queue: seq<Item>, e: Event) {
    e in c.yielded || e in c.backlog || Item(e) in queue || e in s.inflight.Values
  }

  /** Nothing comes after a sentinel but sentinels of further finishes. */
  predicate SentinelsLast(queue: seq<Item>) {
    forall i, j :: 0 <= i < j < |queue| && queue[i] == Sentinel ==> queue[j] == Sentinel
  }

  ghost predicate QueueInv(s: State, c: Cursor, queue: seq<Item>) {
    && (forall e :: Item(e) in queue ==> e in s.shared.rows)
    && (c.phase != Opened ==> forall e :: e in s.shared.rows ==> Covered(s, c, queue, e))
    && (c.phase == Opened ==> c.yielded == [])
    && (c.phase in {Opened, Following, Flushing} ==> c.backlog == [])
    && (c.phase == Flushing ==> s.finish != NotStarted)
    && (c.phase == Following && s.finish == Published ==> Sentinel in queue)
    && (Sentinel in queue ==> s.finish == Published)
    && (!s.late ==> SentinelsLast(queue))
  }

  ghost predicate CursorInv(s: State, k: nat)
    requires k in s.cursors
  {
    var c := s.cursors[k];
    && YieldInv(s.shared.rows, c)
    && (k in s.shared.queues <==> Live(c.phase))
    && (k in s.shared.queues ==> QueueInv(s, c, s.shared.queues[k]))
    && (c.phase == Ended && !s.late ==>
          s.finish != NotStarted && c.backlog == [] && forall e :: e in s.shared.rows ==> e in c.yielded)
  }

  ghost predicate Inv(s: State) {
    && LogInv(s)
    && s.shared.queues.Keys <= s.cursors.Keys
    && (forall k :: k in s.cursors ==> CursorInv(s, k))
  }

  // ---- Writers and the finisher ------------------------------------------------------------

  lemma CommitKeeps(s: State, w: nat, e: Event)
    requires Inv(s) && Enabled(s, CommitEvent(w, e))
    ensures Inv(Next(s, CommitEvent(w, e)))
  {
    var t := Next(s, CommitEvent(w, e));
    assert e !in s.shared.rows;
    assert e in t.inflight.Values by { assert t.inflight[w] == e; }
    forall x | x in s.inflight.Values ensures x in t.inflight.Values {
      var v :| v in s.inflight && s.inflight[v] == x;
      assert t.inflight[v] == x;
    }
    assert LogInv(t);
    forall k | k in t.cursors ensures CursorInv(t, k) {
      assert CursorInv(s, k);
      if k in s.shared.queues {
        var c, queue := s.cursors[k], s.shared.queues[k];
        forall x | x in t.shared.rows && c.phase != Opened ensures Covered(t, c, queue, x) {
          assert x in s.shared.rows ==> Covered(s, c, queue, x);
        }
      }
    }
  }

  lemma PublishKeepsLog(s: State, w: nat)
    requires LogInv(s) && w in s.inflight
    ensures LogInv(Next(s, PublishEvent(w)))
  {
    var t := Next(s, PublishEvent(w));
    forall e | e in t.shared.rows ensures e in t.published || e in t.inflight.Values {
      if e in s.inflight.Values && e != s.inflight[w] {
        var v :| v in s.inflight && s.inflight[v] == e;
        assert t.inflight[v] == e;
      }
    }
  }

  lemma PublishKeeps(s: State, w: nat)
    requires Inv(s) && Enabled(s, PublishEvent(w))
    ensures Inv(Next(s, PublishEvent(w)))
  {
    var t := Next(s, PublishEvent(w));
    PublishKeepsLog(s, w);
    forall k | k in t.cursors ensures CursorInv(t, k) {
      assert CursorInv(s, k);
      PublishKeepsCursor(s, w, k);
    }
  }

  lemma PublishKeepsCursor(s: State, w: nat, k: nat)
    requires Inv(s) && Enabled(s, PublishEvent(w)) && k in s.cursors && CursorInv(s, k)
    ensures CursorInv(Next(s, PublishEvent(w)), k)
  {
    var t := Next(s, PublishEvent(w));
    if k in s.shared.queues {
      var c, queue, queue' := s.cursors[k], s.shared.queues[k], t.shared.queues[k];
      assert queue' == queue + [Item(s.inflight[w])];
      assert !s.late ==> Sentinel !in queue;
      forall x | x in t.shared.rows && c.phase != Opened ensures Covered(t, c, queue', x) {
        assert Covered(s, c, queue, x);
        if x in s.inflight.Values {
          var v :| v in s.inflight && s.inflight[v] == x;
          if v == w {
            assert queue'[|queue|] == Item(x);
          } else {
            assert t.inflight[v] == x;
          }
        }
      }
    }
  }

  lemma FinishKeeps(s: State, step: Step)
    requires Inv(s) && Enabled(s, step) && (step == CommitFinish || step == PublishFinish)
    ensures Inv(Next(s, step))
  {
    var t := Next(s, step);
    forall k | k in t.cursors ensures CursorInv(t, k) {
      assert CursorInv(s, k);
      if k in s.shared.queues {
        if step == CommitFinish {
          StillCovered(s, t, s.cursors[k], s.shared.queues[k]);
        } else {
          SentinelKeepsQueue(s, t, s.cursors[k], s.shared.queues[k]);
        }
      }
    }
  }

  lemma StillCovered(s: State, t: State, c: Cursor, queue: seq<Item>)
    requires QueueInv(s, c, queue) && t.shared.rows == s.shared.rows && t.inflight == s.inflight
    ensures c.phase != Opened ==> forall e :: e in t.shared.rows ==> Covered(t, c, queue, e)
  {
    forall x | x in t.shared.rows && c.phase != Opened ensures Covered(t, c, queue, x) {
      assert Covered(s, c, queue, x);
    }
  }

  lemma SentinelKeepsQueue(s: State, t: State, c: Cursor, queue: seq<Item>)
    requires QueueInv(s, c, queue) && t.shared.rows == s.shared.rows && t.inflight == s.inflight
    requires t.finish == Published && t.late == s.late
    ensures QueueInv(t, c, queue + [Sentinel])
  {
    assert (queue + [Sentinel])[|queue|] == Sentinel;
    assert forall e :: Item(e) in queue + [Sentinel] <==> Item(e) in queue;
    forall x | x in t.shared.rows && c.phase != Opened ensures Covered(t, c, queue + [Sentinel], x) {
      assert Covered(s, c, queue, x);
    }
  }

  lemma AdvanceKeeps(s: State, step: Step)
    requires Inv(s) && Enabled(s, step) && (step == CreateRun || step.Advance?)
    ensures Inv(Next(s, step))
  {
    var t := Next(s, step);
    forall k | k in t.cursors ensures CursorInv(t, k) {
      assert CursorInv(s, k);
      if k in s.shared.queues {
        forall x | x in t.shared.rows && t.cursors[k].phase != Opened
          ensures Covered(t, t.cursors[k], t.shared.queues[k], x)
        {
          assert Covered(s, s.cursors[k], s.shared.queues[k], x);
        }
      }
    }
  }

  // ---- The subscriber ----------------------------------------------------------------------

  /** Changing one cursor leaves the invariants of all others alone. */
  lemma SettleKeeps(s: State, k: nat, c: Cursor, queue: seq<Item>)
    requires LogInv(s) && s.shared.queues.Keys <= s.cursors.Keys
    requires forall j :: j in s.cursors && j != k ==> CursorInv(s, j)
    requires YieldInv(s.shared.rows, c)
    requires Live(c.phase) ==> QueueInv(s, c, queue)
    requires c.phase == Ended && !s.late ==>
               s.finish != NotStarted && c.backlog == [] && forall e :: e in s.shared.rows ==> e in c.yielded
    ensures Inv(Settle(s, k, c, queue))
  {
    var t := Settle(s, k, c, queue);
    forall j | j in t.cursors ensures CursorInv(t, j) {
      if j == k {
        if Live(c.phase) {
          forall x | x in t.shared.rows && c.phase != Opened ensures Covered(t, c, queue, x) {
            assert Covered(s, c, queue, x);
          }
        }
      } else {
        assert CursorInv(s, j);
        if j in s.shared.queues {
          forall x | x in t.shared.rows && s.cursors[j].phase != Opened
            ensures Covered(t, s.cursors[j], s.shared.queues[j], x)
          {
            assert Covered(s, s.cursors[j], s.shared.queues[j], x);
          }
        }
      }
    }
  }

  lemma ReplayKeepsYield(rows: seq<Event>, c: Cursor)
    requires YieldInv(rows, c) && c.backlog != []
    ensures YieldInv(rows, ReplayOne(c))
  {
    var d := ReplayOne(c);
    assert d.yielded + d.backlog == c.yielded + c.backlog;
    assert forall e :: e in d.yielded <==> e in c.yielded || e == c.backlog[0];
  }

  lemma TakeKeepsYield(rows: seq<Event>, c: Cursor, e: Event)
    requires YieldInv(rows, c) && c.backlog == [] && e in rows
    ensures YieldInv(rows, TakeItem(c, Item(e)))
    ensures Distinct(rows) ==> e in TakeItem(c, Item(e)).yielded
  {
    var d := TakeItem(c, Item(e));
    assert c.yielded + c.backlog == c.yielded && d.yielded + d.backlog == d.yielded;
    if e.id in c.seen {
      var x :| x in c.yielded && x.id == e.id;
      if Distinct(rows) {
        SameRow(rows, x, e);
      }
    } else {
      assert forall x :: x in d.yielded <==> x in c.yielded || x == e;
      forall i | 0 <= i < |c.yielded| ensures c.yielded[i].id != e.id {
        assert c.yielded[i] in c.yielded;
      }
    }
  }

  lemma SameRow(rows: seq<Event>, x: Event, y: Event)
    requires Distinct(rows) && x in rows && y in rows && x.id == y.id
    ensures x == y
  {
  }

  lemma TakeKeeps(s: State, k: nat)
    requires Inv(s) && Enabled(s, Take(k))
    ensures Inv(Next(s, Take(k)))
  {
    var c, queue := s.cursors[k], s.shared.queues[k];
    assert CursorInv(s, k);
    var d, rest := TakeItem(c, queue[0]), queue[1..];
    assert forall x :: x in queue <==> x == queue[0] || x in rest;
    match queue[0] {
      case Item(e) =>
        TakeKeepsYield(s.shared.rows, c, e);
        assert forall i :: 0 <= i < |rest| ==> rest[i] == queue[i + 1];
        forall x | x in s.shared.rows ensures Covered(s, d, rest, x) {
          assert Covered(s, c, queue, x);
        }
      case Sentinel =>
        if !s.late {
          assert forall i :: 0 <= i < |queue| ==> queue[i] == Sentinel;
          forall x | x in s.shared.rows ensures x in d.yielded {
            assert Covered(s, c, queue, x);
          }
        }
    }
    SettleKeeps(s, k, d, rest);
  }

  lemma ReplayKeeps(s: State, k: nat)
    requires Inv(s) && Enabled(s, Replay(k))
    ensures Inv(Next(s, Replay(k)))
  {
    var c := s.cursors[k];
    assert CursorInv(s, k);
    ReplayKeepsYield(s.shared.rows, c);
    var d := ReplayOne(c);
    forall x | x in s.shared.rows ensures Covered(s, d, s.shared.queues[k], x) {
      assert Covered(s, c, s.shared.queues[k], x);
      assert x in c.backlog ==> x == c.backlog[0] || x in d.backlog;
    }
    SettleKeeps(s, k, d, s.shared.queues[k]);
  }

  lemma ReadStateKeeps(s: State, k: nat)
    requires Inv(s) && Enabled(s, ReadState(k))
    ensures Inv(Next(s, ReadState(k)))
  {
    var c := s.cursors[k];
    assert CursorInv(s, k);
    var d := SeeState(c, s.shared.run);
    forall x | x in s.shared.rows ensures Covered(s, d, s.shared.queues[k], x) {
      assert Covered(s, c, s.shared.queues[k], x);
    }
    SettleKeeps(s, k, d, s.shared.queues[k]);
  }

  lemma ReturnKeeps(s: State, k: nat)
    requires Inv(s) && Enabled(s, Return(k))
    ensures Inv(Next(s, Return(k)))
  {
    var c := s.cursors[k];
    assert CursorInv(s, k);
    if !s.late {
      forall x | x in s.shared.rows ensures x in c.yielded {
        assert Covered(s, c, s.shared.queues[k], x);
      }
    }
    SettleKeeps(s, k, c.(phase := Ended), []);
  }

  lemma SubscriberKeeps(s: State, step: Step)
    requires Inv(s) && Enabled(s, step)
    requires step.Subscribe? || step.ReadRows? || step.Replay? || step.ReadState? || step.Return? || step.Drop?
    ensures Inv(Next(s, step))
  {
    match step
    case Subscribe(k) =>
      SettleKeeps(s, k, OpenCursor(|s.published|), []);
    case ReadRows(k) =>
      var c := s.cursors[k];
      assert CursorInv(s, k);
      SettleKeeps(s, k, StartReplay(c, s.shared.rows), s.shared.queues[k]);
    case Replay(k) => ReplayKeeps(s, k);
    case ReadState(k) => ReadStateKeeps(s, k);
    case Return(k) => ReturnKeeps(s, k);
    case Drop(k) =>
      assert CursorInv(s, k);
      SettleKeeps(s, k, s.cursors[k].(phase := Dropped), []);
  }

  lemma NextKeeps(s: State, step: Step)
    requires Inv(s) && Enabled(s, step)
    ensures Inv(Next(s, step))
  {
    match step
    case CreateRun => AdvanceKeeps(s, step);
    case Advance(_) => AdvanceKeeps(s, step);
    case CommitEvent(w, e) => CommitKeeps(s, w, e);
    case PublishEvent(w) => PublishKeeps(s, w);
    case CommitFinish => FinishKeeps(s, step);
    case PublishFinish => FinishKeeps(s, step);
    case Take(k) => TakeKeeps(s, k);
    case _ => SubscriberKeeps(s, step);
  }

  // ---- Order -------------------------------------------------------------------------------

  function Max(a: nat, b: nat): nat {
    if a < b then b else a
  }

  /** With one append at a time, publication order is row order. */
  ghost predicate LogOrder(s: State) {
    && |s.published| <= |s.shared.rows|
    && s.published == s.shared.rows[..|s.published|]
    && (s.inflight == map[] ==> |s.published| == |s.shared.rows|)
    && (forall w :: w in s.inflight ==>
          |s.shared.rows| == |s.published| + 1 && s.inflight[w] == s.shared.rows[|s.published|])
  }

  /** The queue holds these events in order, and then only sentinels. */
  predicate Carries(queue: seq<Item>, events: seq<Event>) {
    && |events| <= |queue|
    && (forall i :: 0 <= i < |events| ==> queue[i] == Item(events[i]))
    && (forall i :: |events| <= i < |queue| ==> queue[i] == Sentinel)
  }

  /** A queue is the part of the publication order that was published since it was registered. */
  ghost predicate QueueOrder(s: State, c: Cursor, queue: seq<Item>) {
    && c.joined + c.taken <= |s.published|
    && Carries(queue, s.published[c.joined + c.taken..])
    && (c.phase in {Opened, Replaying} ==> c.taken == 0)
  }

  ghost predicate CursorOrder(rows: seq<Event>, c: Cursor) {
    match c.phase
    case Opened => c.yielded == []
    case Replaying => c.joined <= c.snapshot <= |rows| && c.yielded + c.backlog == rows[..c.snapshot]
    case Following => c.joined + c.taken <= |rows| && c.snapshot <= |rows| && c.yielded == rows[..Max(c.snapshot, c.joined + c.taken)]
    case Flushing => c.joined + c.taken <= |rows| && c.snapshot <= |rows| && c.yielded == rows[..Max(c.snapshot, c.joined + c.taken)]
    case Ended => c.yielded <= rows
    case Failed => c.yielded <= rows
    case Dropped => c.yielded <= rows
  }

  ghost predicate OrderInv(s: State) {
    !s.late && !s.overlapped ==>
      && LogOrder(s)
      && (forall k :: k in s.cursors ==> CursorOrder(s.shared.rows, s.cursors[k]))
      && (forall k :: k in s.cursors && k in s.shared.queues ==> QueueOrder(s, s.cursors[k], s.shared.queues[k]))
  }

  lemma CursorOrderGrows(rows: seq<Event>, c: Cursor, e: Event)
    requires CursorOrder(rows, c)
    ensures CursorOrder(rows + [e], c)
  {
    match c.phase
    case Replaying => assert (rows + [e])[..c.snapshot] == rows[..c.snapshot];
    case Following =>
      assert (rows + [e])[..Max(c.snapshot, c.joined + c.taken)] == rows[..Max(c.snapshot, c.joined + c.taken)];
    case Flushing =>
      assert (rows + [e])[..Max(c.snapshot, c.joined + c.taken)] == rows[..Max(c.snapshot, c.joined + c.taken)];
    case _ =>
  }

  lemma MoreIsSentinel(queue: seq<Item>, events: seq<Event>)
    requires Carries(queue, events) && |events| < |queue|
    ensures Sentinel in queue
  {
    assert queue[|events|] == Sentinel;
  }

  lemma QueueGrows(published: seq<Event>, from: nat, queue: seq<Item>, e: Event)
    requires from <= |published| && Carries(queue, published[from..]) && Sentinel !in queue
    ensures Carries(queue + [Item(e)], (published + [e])[from..])
  {
    assert (published + [e])[from..] == published[from..] + [e];
    if |queue| > |published[from..]| {
      MoreIsSentinel(queue, published[from..]);
    }
  }

  lemma CommitKeepsOrder(s: State, w: nat, e: Event)
    requires OrderInv(s) && Enabled(s, CommitEvent(w, e))
    ensures OrderInv(Next(s, CommitEvent(w, e)))
  {
    var t := Next(s, CommitEvent(w, e));
    if !t.late && !t.overlapped {
      assert s.shared.rows == s.published;
      assert t.published == t.shared.rows[..|t.published|];
      forall k | k in s.cursors ensures CursorOrder(t.shared.rows, t.cursors[k]) {
        CursorOrderGrows(s.shared.rows, s.cursors[k], e);
      }
      forall k | k in t.cursors && k in t.shared.queues ensures QueueOrder(t, t.cursors[k], t.shared.queues[k]) {
        assert QueueOrder(s, s.cursors[k], s.shared.queues[k]);
      }
    }
  }

  lemma PublishKeepsLogOrder(s: State, w: nat)
    requires LogInv(s) && LogOrder(s) && Enabled(s, PublishEvent(w))
    ensures LogOrder(Next(s, PublishEvent(w)))
  {
    forall v | v in s.inflight ensures v == w {
      assert s.inflight[v] == s.inflight[w];
    }
    assert Next(s, PublishEvent(w)).inflight == map[];
  }

  lemma PublishKeepsOrder(s: State, w: nat)
    requires Inv(s) && OrderInv(s) && Enabled(s, PublishEvent(w))
    ensures OrderInv(Next(s, PublishEvent(w)))
  {
    var t := Next(s, PublishEvent(w));
    if !t.late && !t.overlapped {
      PublishKeepsLogOrder(s, w);
      forall k | k in t.cursors && k in t.shared.queues ensures QueueOrder(t, t.cursors[k], t.shared.queues[k]) {
        assert CursorInv(s, k) && QueueOrder(s, s.cursors[k], s.shared.queues[k]);
        PublishedInOrder(s, t, s.cursors[k], s.shared.queues[k], s.inflight[w]);
      }
    }
  }

  lemma PublishedInOrder(s: State, t: State, c: Cursor, queue: seq<Item>, e: Event)
    requires QueueOrder(s, c, queue) && Sentinel !in queue && t.published == s.published + [e]
    ensures QueueOrder(t, c, queue + [Item(e)])
  {
    QueueGrows(s.published, c.joined + c.taken, queue, e);
  }

  lemma SentinelKeepsOrder(s: State)
    requires Inv(s) && OrderInv(s) && Enabled(s, PublishFinish)
    ensures OrderInv(Next(s, PublishFinish))
  {
    var t := Next(s, PublishFinish);
    if !t.late && !t.overlapped {
      forall k | k in t.cursors && k in t.shared.queues ensures QueueOrder(t, t.cursors[k], t.shared.queues[k]) {
        assert QueueOrder(s, s.cursors[k], s.shared.queues[k]);
      }
    }
  }

  lemma WritersKeepOrder(s: State, step: Step)
    requires Inv(s) && OrderInv(s) && Enabled(s, step) && WriterStep(step)
    ensures OrderInv(Next(s, step))
  {
    match step
    case CommitEvent(w, e) => CommitKeepsOrder(s, w, e);
    case PublishEvent(w) => PublishKeepsOrder(s, w);
    case PublishFinish => SentinelKeepsOrder(s);
    case _ => StateKeepsOrder(s, step);
  }

  /** A step that only changes the run state. */
  lemma StateKeepsOrder(s: State, step: Step)
    requires OrderInv(s) && Enabled(s, step) && (step.CreateRun? || step.Advance? || step.CommitFinish?)
    ensures OrderInv(Next(s, step))
  {
    var t := Next(s, step);
    if !t.late && !t.overlapped {
      forall k | k in t.cursors && k in t.shared.queues ensures QueueOrder(t, t.cursors[k], t.shared.queues[k]) {
        assert QueueOrder(s, s.cursors[k], s.shared.queues[k]);
      }
    }
  }

  /** The next queued event extends the yielded prefix by one row, or was in the snapshot already. */
  lemma TakeExtendsPrefix(rows: seq<Event>, c: Cursor, e: Event)
    requires Distinct(rows) && c.seen == Ids(c.yielded)
    requires c.phase in {Following, Flushing} && CursorOrder(rows, c)
    requires c.joined + c.taken < |rows| && rows[c.joined + c.taken] == e
    ensures CursorOrder(rows, TakeItem(c, Item(e)))
  {
    var from := c.joined + c.taken;
    if from < c.snapshot {
      assert c.yielded[from] == e && c.yielded[from] in c.yielded;
    } else {
      forall i | 0 <= i < |c.yielded| ensures c.yielded[i].id != e.id {
        assert c.yielded[i] == rows[i];
      }
      assert rows[..from + 1] == rows[..from] + [e];
    }
  }

  lemma TakeKeepsQueueOrder(s: State, c: Cursor, queue: seq<Item>)
    requires QueueOrder(s, c, queue) && queue != [] && queue[0].Item? && c.phase in {Following, Flushing}
    ensures c.joined + c.taken < |s.published| && queue[0].event == s.published[c.joined + c.taken]
    ensures QueueOrder(s, TakeItem(c, queue[0]), queue[1..])
  {
    var from := c.joined + c.taken;
    var rest := queue[1..];
    assert from < |s.published| ==> s.published[from + 1..] == s.published[from..][1..];
    assert forall i :: 0 <= i < |rest| ==> rest[i] == queue[i + 1];
  }

  lemma TakeKeepsOrder(s: State, k: nat)
    requires Inv(s) && OrderInv(s) && Enabled(s, Take(k))
    ensures OrderInv(Next(s, Take(k)))
  {
    var c, queue := s.cursors[k], s.shared.queues[k];
    assert CursorInv(s, k);
    if !s.late && !s.overlapped {
      assert CursorOrder(s.shared.rows, c) && QueueOrder(s, c, queue);
      TakenInOrder(s, c, queue);
    }
    SettleKeepsOrder(s, k, TakeItem(c, queue[0]), queue[1..]);
  }

  lemma TakenInOrder(s: State, c: Cursor, queue: seq<Item>)
    requires Distinct(s.shared.rows) && LogOrder(s) && c.seen == Ids(c.yielded) && c.phase in {Following, Flushing}
    requires CursorOrder(s.shared.rows, c) && QueueOrder(s, c, queue) && queue != []
    ensures CursorOrder(s.shared.rows, TakeItem(c, queue[0]))
    ensures Live(TakeItem(c, queue[0]).phase) ==> QueueOrder(s, TakeItem(c, queue[0]), queue[1..])
  {
    if queue[0].Item? {
      TakeKeepsQueueOrder(s, c, queue);
      TakeExtendsPrefix(s.shared.rows, c, queue[0].event);
    }
  }

  lemma SettleKeepsOrder(s: State, k: nat, c: Cursor, queue: seq<Item>)
    requires OrderInv(s)
    requires !s.late && !s.overlapped ==> CursorOrder(s.shared.rows, c) && (Live(c.phase) ==> QueueOrder(s, c, queue))
    ensures OrderInv(Settle(s, k, c, queue))
  {
    var t := Settle(s, k, c, queue);
    if !t.late && !t.overlapped {
      forall j | j in t.cursors && j in t.shared.queues ensures QueueOrder(t, t.cursors[j], t.shared.queues[j]) {
        if j == k {
          assert QueueOrder(s, c, queue);
        } else {
          assert QueueOrder(s, s.cursors[j], s.shared.queues[j]);
        }
      }
    }
  }

  lemma ReadRowsKeepsOrder(s: State, k: nat)
    requires Inv(s) && OrderInv(s) && Enabled(s, ReadRows(k))
    ensures OrderInv(Next(s, ReadRows(k)))
  {
    var c, queue := s.cursors[k], s.shared.queues[k];
    assert CursorInv(s, k);
    if !s.late && !s.overlapped {
      assert QueueOrder(s, c, queue);
      ReadInOrder(s, c, queue);
    }
    SettleKeepsOrder(s, k, StartReplay(c, s.shared.rows), queue);
  }

  lemma ReadInOrder(s: State, c: Cursor, queue: seq<Item>)
    requires LogOrder(s) && QueueOrder(s, c, queue) && c.phase == Opened && c.yielded == []
    ensures CursorOrder(s.shared.rows, StartReplay(c, s.shared.rows)) && QueueOrder(s, StartReplay(c, s.shared.rows), queue)
  {
    var rows := s.shared.rows;
    assert rows[..|rows|] == rows && [] + rows == rows;
  }

  lemma ReplayKeepsOrder(s: State, k: nat)
    requires OrderInv(s) && Enabled(s, Replay(k))
    ensures OrderInv(Next(s, Replay(k)))
  {
    var c := s.cursors[k];
    var d := ReplayOne(c);
    assert d.yielded + d.backlog == c.yielded + c.backlog;
    if !s.late && !s.overlapped {
      assert CursorOrder(s.shared.rows, c) && QueueOrder(s, c, s.shared.queues[k]);
    }
    SettleKeepsOrder(s, k, d, s.shared.queues[k]);
  }

  lemma ReadStateKeepsOrder(s: State, k: nat)
    requires OrderInv(s) && Enabled(s, ReadState(k))
    ensures OrderInv(Next(s, ReadState(k)))
  {
    var c := s.cursors[k];
    assert c.yielded + c.backlog == c.yielded;
    if !s.late && !s.overlapped {
      assert CursorOrder(s.shared.rows, c) && QueueOrder(s, c, s.shared.queues[k]);
    }
    SettleKeepsOrder(s, k, SeeState(c, s.shared.run), s.shared.queues[k]);
  }

  lemma LeaveKeepsOrder(s: State, step: Step)
    requires OrderInv(s) && Enabled(s, step) && (step.Return? || step.Drop?)
    ensures OrderInv(Next(s, step))
  {
    var c := s.cursors[step.k];
    if !s.late && !s.overlapped {
      assert CursorOrder(s.shared.rows, c);
      assert c.yielded == (c.yielded + c.backlog)[..|c.yielded|];
    }
    SettleKeepsOrder(s, step.k, c.(phase := if step.Return? then Ended else Dropped), []);
  }

  lemma SubscribersKeepOrder(s: State, step: Step)
    requires Inv(s) && OrderInv(s) && Enabled(s, step) && !WriterStep(step)
    ensures OrderInv(Next(s, step))
  {
    match step
    case Subscribe(k) =>
      assert s.published[|s.published|..] == [];
      SettleKeepsOrder(s, k, OpenCursor(|s.published|), []);
    case ReadRows(k) => ReadRowsKeepsOrder(s, k);
    case Replay(k) => ReplayKeepsOrder(s, k);
    case ReadState(k) => ReadStateKeepsOrder(s, k);
    case Take(k) => TakeKeepsOrder(s, k);
    case _ => LeaveKeepsOrder(s, step);
  }

  /** Both invariants hold after every run. */
  lemma {:induction false} RunsKeep(steps: seq<Step>)
    requires Legal(steps)
    ensures Inv(Exec(steps)) && OrderInv(Exec(steps))
  {
    if steps != [] {
      var front, step := steps[..|steps| - 1], steps[|steps| - 1];
      RunsKeep(front);
      NextKeeps(Exec(front), step);
      if WriterStep(step) {
        WritersKeepOrder(Exec(front), step);
      } else {
        SubscribersKeepOrder(Exec(front), step);
      }
    }
  }

  lemma ReachableInv(s: State)
    requires Reachable(s)
    ensures Inv(s) && OrderInv(s)
  {
    var steps :| Legal(steps) && Exec(steps) == s;
    RunsKeep(steps);
  }

  // ---- Delivery theorems -------------------------------------------------------------------

  /** In every interleaving, whatever the writers do: only committed events, and each at most once. */
  lemma AtMostOnce(s: State, k: nat)
    requires Reachable(s) && k in s.cursors
    ensures Distinct(s.cursors[k].yielded)
    ensures forall e :: e in s.cursors[k].yielded ==> e in s.shared.rows
  {
    ReachableInv(s);
    assert CursorInv(s, k);
    var c := s.cursors[k];
    assert c.yielded == (c.yielded + c.backlog)[..|c.yielded|];
    assert forall e :: e in c.yielded ==> e in c.yielded + c.backlog;
  }

  lemma DistinctMultiplicity(events: seq<Event>, e: Event)
    requires Distinct(events)
    ensures multiset(events)[e] == if e in events then 1 else 0
  {
    if events != [] {
      var front, last := events[..|events| - 1], events[|events| - 1];
      assert events == front + [last];
      DistinctMultiplicity(front, e);
      forall i | 0 <= i < |front| ensures front[i] != last {}
    }
  }

  /** A stream that returned, with all appends complete before the finish: each event exactly once. */
  lemma ExactlyOnce(s: State, k: nat)
    requires Reachable(s) && k in s.cursors && s.cursors[k].phase == Ended && !s.late
    ensures multiset(s.cursors[k].yielded) == multiset(s.shared.rows)
    ensures s.shared.run == Some(Finished) && s.inflight == map[]
  {
    AtMostOnce(s, k);
    ReachableInv(s);
    assert CursorInv(s, k);
    forall e ensures multiset(s.cursors[k].yielded)[e] == multiset(s.shared.rows)[e] {
      DistinctMultiplicity(s.cursors[k].yielded, e);
      DistinctMultiplicity(s.shared.rows, e);
    }
  }

  /** With one append at a time the consumer always sees a prefix of the log, and in the end all of it. */
  lemma InLogOrder(s: State, k: nat)
    requires Reachable(s) && k in s.cursors && !s.late && !s.overlapped
    ensures s.cursors[k].yielded <= s.shared.rows
    ensures s.cursors[k].phase == Ended ==> s.cursors[k].yielded == s.shared.rows
  {
    ReachableInv(s);
    assert CursorInv(s, k);
    var c := s.cursors[k];
    assert CursorOrder(s.shared.rows, c);
    if c.phase == Replaying {
      assert c.yielded == (c.yielded + c.backlog)[..|c.yielded|];
    }
    if c.phase == Ended {
      ExactlyOnce(s, k);
      assert |multiset(c.yielded)| == |c.yielded| && |multiset(s.shared.rows)| == |s.shared.rows|;
    }
  }

  lemma {:induction false} KnownIsCreated(steps: seq<Step>)
    requires Legal(steps)
    ensures Exec(steps).shared.run.Some? <==> CreateRun in steps
    decreases |steps|
  {
    if steps != [] {
      KnownIsCreated(steps[..|steps| - 1]);
      if steps[|steps| - 1] == CommitFinish || steps[|steps| - 1].Advance? {
        assert Exec(steps[..|steps| - 1]).shared.run.Some?;
      }
    }
  }

  /**
   What a stream goes on with once its rows are replayed: the stream of a run that was never created fails
   and is unregistered, that of a finished run empties its queue, and any other one follows.
   */
  lemma UnknownRunFails(steps: seq<Step>, k: nat)
    requires Legal(steps) && Enabled(Exec(steps), ReadState(k))
    ensures var s, t := Exec(steps), Exec(steps + [ReadState(k)]);
            && Legal(steps + [ReadState(k)]) && t.cursors[k].yielded == s.cursors[k].yielded
            && (t.cursors[k].phase == Failed <==> CreateRun !in steps)
            && (t.cursors[k].phase == Flushing <==> s.finish != NotStarted)
            && (t.cursors[k].phase == Following <==> CreateRun in steps && s.finish == NotStarted)
            && (k in t.shared.queues <==> CreateRun in steps)
  {
    KnownIsCreated(steps);
    RunsKeep(steps);
    RunGoesOn(steps, ReadState(k));
  }

  /** The steps a subscriber takes on its own. */
  predicate OwnStep(k: nat, step: Step) {
    match step
    case ReadRows(j) => j == k
    case Replay(j) => j == k
    case ReadState(j) => j == k
    case Take(j) => j == k
    case Return(j) => j == k
    case _ => false
  }

  /** The events in a queue. */
  function Waiting(queue: seq<Item>): nat {
    if queue == [] then 0
    else Waiting(queue[..|queue| - 1]) + if queue[|queue| - 1] == Sentinel then 0 else 1
  }

  lemma WaitingMore(queue: seq<Item>, item: Item)
    ensures Waiting(queue + [item]) == Waiting(queue) + if item == Sentinel then 0 else 1
  {
    assert (queue + [item])[..|queue|] == queue;
  }

  lemma {:induction false} WaitingRest(queue: seq<Item>)
    requires queue != []
    ensures Waiting(queue) == Waiting(queue[1..]) + if queue[0] == Sentinel then 0 else 1
    decreases |queue|
  {
    if |queue| > 1 {
      var front := queue[..|queue| - 1];
      WaitingRest(front);
      assert queue[1..][..|queue[1..]| - 1] == front[1..];
    }
  }

  /** How much the subscriber still has to do if no event is published any more. */
  function Work(s: State, k: nat): nat
    requires k in s.cursors && (Live(s.cursors[k].phase) ==> k in s.shared.queues)
  {
    var c := s.cursors[k];
    match c.phase
    case Opened => |s.shared.rows| + Waiting(s.shared.queues[k]) + 3
    case Replaying => |c.backlog| + Waiting(s.shared.queues[k]) + 2
    case Following => Waiting(s.shared.queues[k]) + 1
    case Flushing => Waiting(s.shared.queues[k]) + 1
    case _ => 0
  }

  /**
   No blocked subscriber: once the finish step is done, a live subscriber always has a step of its
   own, and every step of its own brings it strictly closer to its end.
   */
  lemma NoBlockedSubscriber(s: State, k: nat)
    requires Reachable(s) && s.finish == Published && k in s.cursors && Live(s.cursors[k].phase)
    ensures k in s.shared.queues
    ensures exists step :: OwnStep(k, step) && Enabled(s, step)
    ensures forall step :: OwnStep(k, step) && Enabled(s, step) ==>
              && (Live(Next(s, step).cursors[k].phase) ==> k in Next(s, step).shared.queues)
              && Work(Next(s, step), k) < Work(s, k)
  {
    ReachableInv(s);
    assert CursorInv(s, k);
    LiveHasStep(s, k);
    forall step | OwnStep(k, step) && Enabled(s, step)
      ensures (Live(Next(s, step).cursors[k].phase) ==> k in Next(s, step).shared.queues)
      ensures Work(Next(s, step), k) < Work(s, k)
    {
      OwnStepWorks(s, k, step);
    }
  }

  lemma LiveHasStep(s: State, k: nat)
    requires k in s.cursors && CursorInv(s, k) && Live(s.cursors[k].phase) && s.finish == Published
    ensures exists step :: OwnStep(k, step) && Enabled(s, step)
  {
    var c := s.cursors[k];
    var step := if c.phase == Opened then ReadRows(k)
                else if c.phase == Replaying then if c.backlog != [] then Replay(k) else ReadState(k)
                else if c.phase == Following then Take(k)
                else if s.shared.queues[k] != [] then Take(k)
                else Return(k);
    assert OwnStep(k, step) && Enabled(s, step);
  }

  lemma OwnStepWorks(s: State, k: nat, step: Step)
    requires k in s.cursors && k in s.shared.queues && OwnStep(k, step) && Enabled(s, step)
    ensures Live(Next(s, step).cursors[k].phase) ==> k in Next(s, step).shared.queues
    ensures Work(Next(s, step), k) < Work(s, k)
  {
    if step.Take? {
      WaitingRest(s.shared.queues[k]);
    }
  }

  lemma RunGoesOn(steps: seq<Step>, step: Step)
    requires Legal(steps) && Enabled(Exec(steps), step)
    ensures Legal(steps + [step]) && Exec(steps + [step]) == Next(Exec(steps), step)
    ensures Schedule(steps + [step]) == Schedule(steps) + (if WriterStep(step) then [step] else [])
  {
    assert (steps + [step])[..|steps|] == steps;
  }

  lemma ReachableNext(s: State, step: Step)
    requires Reachable(s) && Enabled(s, step)
    ensures Reachable(Next(s, step))
  {
    var steps :| Legal(steps) && Exec(steps) == s;
    RunGoesOn(steps, step);
  }

  lemma InitialIsReachable()
    ensures Reachable(INITIAL)
  {
    assert Legal([]) && Exec([]) == INITIAL;
  }

  /**
   The completion order matters: an append committed but not yet published when the run is marked
   finished is missed by a subscriber that read its rows before that commit.
   */
  lemma LateAppendIsMissed(e: Event) returns (s: State)
    ensures Reachable(s) && s.late
    ensures 0 in s.cursors && s.cursors[0].phase == Ended && s.cursors[0].yielded == [] && s.shared.rows == [e]
  {
    var finished := FinishedUnpublished(e);
    ReachableNext(finished, ReadState(0));
    var flushing := Next(finished, ReadState(0));
    assert flushing.shared.queues[0] == [];
    ReachableNext(flushing, Return(0));
    s := Next(flushing, Return(0));
  }

  /** The finish committed between the commit of an event and its publication. */
  lemma FinishedUnpublished(e: Event) returns (s: State)
    ensures Reachable(s) && s.late && s.shared.rows == [e] && s.shared.run == Some(Finished)
    ensures s.shared.queues == map[0 := []] && s.cursors == map[0 := Cursor(Replaying, [], {}, [], 0, 0, 0)]
  {
    var waiting := ReplayedNothing();
    ReachableNext(waiting, CommitEvent(0, e));
    var committed := Next(waiting, CommitEvent(0, e));
    ReachableNext(committed, CommitFinish);
    s := Next(committed, CommitFinish);
  }

  /** A subscriber that joined an empty run and has read its rows. */
  lemma ReplayedNothing() returns (s: State)
    ensures Reachable(s)
    ensures s == State(Shared([], Some(Queued), map[0 := []]), map[0 := Cursor(Replaying, [], {}, [], 0, 0, 0)],
                       map[], [], NotStarted, false, false)
  {
    InitialIsReachable();
    ReachableNext(INITIAL, CreateRun);
    var created := Next(INITIAL, CreateRun);
    ReachableNext(created, Subscribe(0));
    var registered := Next(created, Subscribe(0));
    ReachableNext(registered, ReadRows(0));
    s := Next(registered, ReadRows(0));
  }
}
