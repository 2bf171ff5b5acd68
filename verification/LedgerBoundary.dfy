/**
 Where exactly-once delivery ends: a schedule of writers and finisher gives every subscriber every event,
 whatever the subscribers do and when, if and only if no append is unfinished at the finish.
 */
module LedgerBoundary {
  import opened Common
  import opened LedgerModel
  import opened LedgerProofs

  // ---- Subscribers do not disturb writers --------------------------------------------------

  /** The states agree on everything writers and the finisher look at. */
  predicate SameLog(s: State, t: State) {
    && s.shared.rows == t.shared.rows && s.shared.run == t.shared.run
    && s.inflight == t.inflight && s.published == t.published && s.finish == t.finish
    && s.late == t.late && s.overlapped == t.overlapped
  }

  lemma SubscribersKeepLog(s: State, step: Step)
    requires Enabled(s, step) && !WriterStep(step)
    ensures SameLog(s, Next(s, step))
  {
  }

  lemma WritersAgree(s: State, t: State, step: Step)
    requires SameLog(s, t) && Enabled(s, step) && WriterStep(step)
    ensures Enabled(t, step) && SameLog(Next(s, step), Next(t, step))
    ensures Next(t, step).cursors == t.cursors && Next(t, step).shared.queues.Keys == t.shared.queues.Keys
  {
  }

  /** Taking the subscribers out of a run leaves a run with the same log. */
  lemma {:induction false} ScheduleIsRun(steps: seq<Step>)
    requires Legal(steps)
    ensures Legal(Schedule(steps)) && SameLog(Exec(Schedule(steps)), Exec(steps))
  {
    if steps != [] {
      var front, step := steps[..|steps| - 1], steps[|steps| - 1];
      ScheduleIsRun(front);
      if WriterStep(step) {
        WritersAgree(Exec(front), Exec(Schedule(front)), step);
        RunGoesOn(Schedule(front), step);
      } else {
        SubscribersKeepLog(Exec(front), step);
        assert Schedule(steps) == Schedule(front);
      }
    }
  }

  predicate AllWriters(steps: seq<Step>) {
    forall i :: 0 <= i < |steps| ==> WriterStep(steps[i])
  }

  lemma {:induction false} ScheduleOfWriters(steps: seq<Step>)
    requires AllWriters(steps)
    ensures Schedule(steps) == steps
  {
    if steps != [] {
      ScheduleOfWriters(steps[..|steps| - 1]);
    }
  }

  // ---- What comes after some point of a run ------------------------------------------------

  /** The steps are possible one after the other from this state on. */
  predicate Plays(s: State, more: seq<Step>)
    decreases |more|
  {
    more == [] || (Enabled(s, more[0]) && Plays(Next(s, more[0]), more[1..]))
  }

  function Play(s: State, more: seq<Step>): State
    requires Plays(s, more)
    decreases |more|
  {
    if more == [] then s else Play(Next(s, more[0]), more[1..])
  }

  lemma {:induction false} PrefixIsLegal(steps: seq<Step>, more: seq<Step>)
    requires Legal(steps + more)
    ensures Legal(steps)
    decreases |more|
  {
    if more == [] {
      assert steps + more == steps;
    } else {
      assert (steps + more)[..|steps + more| - 1] == steps + more[..|more| - 1];
      PrefixIsLegal(steps, more[..|more| - 1]);
    }
  }

  /** Playing one step, and then the others. */
  lemma PlayStep(s: State, more: seq<Step>)
    requires more != [] && Enabled(s, more[0]) && Plays(Next(s, more[0]), more[1..])
    ensures Plays(s, more) && Play(s, more) == Play(Next(s, more[0]), more[1..])
  {
  }

  /** A run is its beginning and what is played from there. */
  lemma {:induction false} RunPlays(steps: seq<Step>, more: seq<Step>)
    requires Legal(steps + more)
    ensures Legal(steps) && Plays(Exec(steps), more) && Exec(steps + more) == Play(Exec(steps), more)
    decreases |more|
  {
    PrefixIsLegal(steps, more);
    if more == [] {
      assert steps + more == steps;
    } else {
      assert steps + more == (steps + [more[0]]) + more[1..];
      PrefixIsLegal(steps + [more[0]], more[1..]);
      RunPlays(steps + [more[0]], more[1..]);
      RunPlaysOn(steps, more);
    }
  }

  lemma RunPlaysOn(steps: seq<Step>, more: seq<Step>)
    requires more != [] && Legal(steps + [more[0]]) && Plays(Exec(steps + [more[0]]), more[1..])
    ensures Legal(steps) && Plays(Exec(steps), more)
    ensures Play(Exec(steps), more) == Play(Exec(steps + [more[0]]), more[1..])
  {
    NextOfRun(steps, more[0]);
    PlayStep(Exec(steps), more);
  }

  lemma NextOfRun(steps: seq<Step>, step: Step)
    requires Legal(steps + [step])
    ensures Legal(steps) && Enabled(Exec(steps), step) && Exec(steps + [step]) == Next(Exec(steps), step)
  {
    assert (steps + [step])[..|steps|] == steps;
  }

  // ---- An event that one subscriber misses -------------------------------------------------

  /** Subscriber 0 has not seen `e` and nothing on its way to it holds `e`. */
  predicate Misses(s: State, e: Event) {
    && 0 in s.cursors && e !in s.cursors[0].yielded && e !in s.cursors[0].backlog
    && (0 in s.shared.queues ==> Item(e) !in s.shared.queues[0])
  }

  lemma MissesKept(s: State, step: Step, e: Event)
    requires Misses(s, e) && Enabled(s, step) && step != ReadRows(0)
    requires step.PublishEvent? ==> s.inflight[step.writer] != e || 0 !in s.shared.queues
    ensures Misses(Next(s, step), e)
  {
  }

  /** None of the steps played from this state on publishes `e`. */
  predicate Withheld(s: State, more: seq<Step>, e: Event)
    requires Plays(s, more)
    decreases |more|
  {
    more == [] || (HoldsBack(s, more[0], e) && Withheld(Next(s, more[0]), more[1..], e))
  }

  predicate HoldsBack(s: State, step: Step, e: Event) {
    step.PublishEvent? ==> step.writer in s.inflight && s.inflight[step.writer] != e
  }

  /** The run follows the schedule so far, and subscriber 0 misses `e`. */
  ghost predicate Shadows(run: seq<Step>, done: seq<Step>, e: Event) {
    && Legal(done) && Legal(run) && Schedule(run) == done
    && SameLog(Exec(done), Exec(run)) && Misses(Exec(run), e)
  }

  /** Let the writers go on; subscriber 0 only listens. */
  lemma {:induction false} WritersGoOn(run: seq<Step>, done: seq<Step>, more: seq<Step>, e: Event) returns (longer: seq<Step>)
    requires Shadows(run, done, e) && AllWriters(more) && Plays(Exec(done), more)
    requires 0 !in Exec(run).shared.queues || Withheld(Exec(done), more, e)
    ensures Shadows(longer, done + more, e) && Exec(longer).cursors == Exec(run).cursors
    ensures Exec(longer).shared.queues.Keys == Exec(run).shared.queues.Keys
    decreases |more|
  {
    if more == [] {
      longer := run;
      assert done + more == done;
    } else {
      PlaysOn(done, more, e);
      var next := WriterGoesOn(run, done, more[0], e);
      longer := WritersGoOn(next, done + [more[0]], more[1..], e);
    }
  }

  /** What is known of the steps to come holds of the first one, and then of the rest. */
  lemma PlaysOn(done: seq<Step>, more: seq<Step>, e: Event)
    requires Legal(done) && more != [] && AllWriters(more) && Plays(Exec(done), more)
    ensures Enabled(Exec(done), more[0]) && WriterStep(more[0]) && AllWriters(more[1..])
    ensures Legal(done + [more[0]]) && Plays(Exec(done + [more[0]]), more[1..])
    ensures Withheld(Exec(done), more, e) ==> HoldsBack(Exec(done), more[0], e) && Withheld(Exec(done + [more[0]]), more[1..], e)
    ensures done + [more[0]] + more[1..] == done + more
  {
    RunGoesOn(done, more[0]);
    assert forall i :: 0 <= i < |more[1..]| ==> more[1..][i] == more[i + 1];
  }

  lemma WriterGoesOn(run: seq<Step>, done: seq<Step>, step: Step, e: Event) returns (longer: seq<Step>)
    requires Shadows(run, done, e) && Enabled(Exec(done), step) && WriterStep(step)
    requires 0 in Exec(run).shared.queues && step.PublishEvent? ==> Exec(done).inflight[step.writer] != e
    ensures Shadows(longer, done + [step], e) && Exec(longer).cursors == Exec(run).cursors
    ensures Exec(longer).shared.queues.Keys == Exec(run).shared.queues.Keys
  {
    BothGoOn(Exec(done), Exec(run), step, e);
    RunGoesOn(run, step);
    RunGoesOn(done, step);
    longer := run + [step];
  }

  /** A writer's step in the schedule is possible in the run and leaves the subscriber without `e`. */
  lemma BothGoOn(s: State, t: State, step: Step, e: Event)
    requires SameLog(s, t) && Misses(t, e) && Enabled(s, step) && WriterStep(step)
    requires 0 in t.shared.queues && step.PublishEvent? ==> s.inflight[step.writer] != e
    ensures Enabled(t, step) && SameLog(Next(s, step), Next(t, step)) && Misses(Next(t, step), e)
    ensures Next(t, step).cursors == t.cursors && Next(t, step).shared.queues.Keys == t.shared.queues.Keys
  {
    WritersAgree(s, t, step);
    MissesKept(t, step, e);
  }

  /** One step of a subscriber. */
  lemma SubscriberGoesOn(run: seq<Step>, done: seq<Step>, e: Event, step: Step)
    requires Shadows(run, done, e) && Enabled(Exec(run), step) && !WriterStep(step) && step != ReadRows(0)
    ensures Shadows(run + [step], done, e) && Exec(run + [step]) == Next(Exec(run), step)
  {
    RunGoesOn(run, step);
    SubscribersKeepLog(Exec(run), step);
    MissesKept(Exec(run), step, e);
  }

  /** Subscribe before `e` is committed, and read and yield the rows there are. */
  lemma JoinBefore(base: seq<Step>, e: Event) returns (run: seq<Step>)
    requires Legal(base) && AllWriters(base) && e !in Exec(base).shared.rows
    ensures Shadows(run, base, e) && At(Exec(run), 0, Replaying) && Exec(run).cursors[0].backlog == []
    ensures Exec(run).shared.queues[0] == []
  {
    ScheduleOfWriters(base);
    NoSubscribers(base);
    RunGoesOn(base, Subscribe(0));
    var joined := base + [Subscribe(0)];
    RunGoesOn(joined, ReadRows(0));
    run := ReplayAll(joined + [ReadRows(0)], base, e);
  }

  lemma {:induction false} NoSubscribers(steps: seq<Step>)
    requires Legal(steps) && AllWriters(steps)
    ensures Exec(steps).cursors == map[] && Exec(steps).shared.queues == map[]
  {
    if steps != [] {
      NoSubscribers(steps[..|steps| - 1]);
    }
  }

  lemma {:induction false} ReplayAll(run: seq<Step>, done: seq<Step>, e: Event) returns (longer: seq<Step>)
    requires Shadows(run, done, e) && At(Exec(run), 0, Replaying)
    ensures Shadows(longer, done, e) && At(Exec(longer), 0, Replaying) && Exec(longer).cursors[0].backlog == []
    ensures Exec(longer).shared.queues[0] == Exec(run).shared.queues[0]
    decreases |Exec(run).cursors[0].backlog|
  {
    if Exec(run).cursors[0].backlog == [] {
      longer := run;
    } else {
      SubscriberGoesOn(run, done, e, Replay(0));
      longer := ReplayAll(run + [Replay(0)], done, e);
    }
  }

  /** The run is finished: read its state, empty the queue and return. */
  lemma Leave(run: seq<Step>, done: seq<Step>, e: Event) returns (longer: seq<Step>)
    requires Shadows(run, done, e) && At(Exec(run), 0, Replaying) && Exec(run).cursors[0].backlog == []
    requires Exec(run).shared.run == Some(Finished)
    ensures Shadows(longer, done, e)
    ensures Exec(longer).cursors[0].phase == Ended && 0 !in Exec(longer).shared.queues
  {
    SubscriberGoesOn(run, done, e, ReadState(0));
    longer := Drain(run + [ReadState(0)], done, e);
  }

  lemma {:induction false} Drain(run: seq<Step>, done: seq<Step>, e: Event) returns (longer: seq<Step>)
    requires Shadows(run, done, e) && At(Exec(run), 0, Flushing)
    ensures Shadows(longer, done, e)
    ensures Exec(longer).cursors[0].phase == Ended && 0 !in Exec(longer).shared.queues
    decreases |Exec(run).shared.queues[0]|
  {
    if Exec(run).shared.queues[0] == [] {
      SubscriberGoesOn(run, done, e, Return(0));
      longer := run + [Return(0)];
    } else {
      SubscriberGoesOn(run, done, e, Take(0));
      longer := run + [Take(0)];
      if Exec(longer).cursors[0].phase == Flushing {
        longer := Drain(longer, done, e);
      }
    }
  }

  /**
   The subscriber that joins just before the commit of `e` and reads the state as soon as the run is
   finished returns without `e`, if `e` is not published in between.
   */
  lemma Loses(a: seq<Step>, b: seq<Step>, c: seq<Step>, e: Event) returns (run: seq<Step>)
    requires Legal(a + b + c) && AllWriters(a + b + c) && Delayed(a, b, e)
    requires Exec(a + b).shared.run == Some(Finished)
    ensures Legal(run) && Schedule(run) == a + b + c
    ensures SameLog(Exec(a + b + c), Exec(run)) && Misses(Exec(run), e) && Exec(run).cursors[0].phase == Ended
  {
    WritersSplit(a, b, c);
    run := JoinBefore(a, e);
    run := WritersGoOn(run, a, b, e);
    run := Leave(run, a + b, e);
    RunPlays(a + b, c);
    run := WritersGoOn(run, a + b, c, e);
  }

  lemma WritersSplit(a: seq<Step>, b: seq<Step>, c: seq<Step>)
    requires AllWriters(a + b + c)
    ensures AllWriters(a) && AllWriters(b) && AllWriters(c)
  {
    var all := a + b + c;
    assert forall i :: 0 <= i < |a| ==> all[i] == a[i];
    assert forall i :: 0 <= i < |b| ==> all[|a| + i] == b[i];
    assert forall i :: 0 <= i < |c| ==> all[|a| + |b| + i] == c[i];
  }

  // ---- Why a schedule is late --------------------------------------------------------------

  /** The event is committed after `a` and not published in `b`. */
  ghost predicate Delayed(a: seq<Step>, b: seq<Step>, e: Event) {
    Legal(a + b) && Legal(a) && e !in Exec(a).shared.rows && Plays(Exec(a), b) && Withheld(Exec(a), b, e)
  }

  lemma {:induction false} WithheldLonger(s: State, more: seq<Step>, t: State, step: Step, e: Event)
    requires Plays(s, more) && Withheld(s, more, e) && t == Play(s, more)
    requires Enabled(t, step) && HoldsBack(t, step, e)
    ensures Plays(s, more + [step]) && Withheld(s, more + [step], e)
    decreases |more|
  {
    if more != [] {
      assert (more + [step])[1..] == more[1..] + [step];
      WithheldLonger(Next(s, more[0]), more[1..], t, step, e);
    }
  }

  lemma DelayedLonger(a: seq<Step>, b: seq<Step>, step: Step, e: Event)
    requires Delayed(a, b, e) && Enabled(Exec(a + b), step) && HoldsBack(Exec(a + b), step, e)
    ensures Delayed(a, b + [step], e)
  {
    RunGoesOn(a + b, step);
    assert a + b + [step] == a + (b + [step]);
    RunPlays(a, b);
    WithheldLonger(Exec(a), b, Exec(a + b), step, e);
  }

  lemma DelayedNot(a: seq<Step>, e: Event)
    requires Legal(a) && e !in Exec(a).shared.rows
    ensures Delayed(a, [], e)
  {
    assert a + [] == a;
  }

  lemma CommitDelays(front: seq<Step>, w: nat, e: Event)
    requires Legal(front) && Enabled(Exec(front), CommitEvent(w, e))
    ensures Delayed(front, [], e) && Delayed(front, [CommitEvent(w, e)], e)
  {
    assert e !in Exec(front).shared.rows by {
      assert e.id !in Ids(Exec(front).shared.rows);
    }
    DelayedNot(front, e);
    assert front + [] == front && [] + [CommitEvent(w, e)] == [CommitEvent(w, e)];
    DelayedLonger(front, [], CommitEvent(w, e), e);
  }

  /** An event in flight was committed at some point and has not been published since. */
  lemma {:induction false} FindCommit(steps: seq<Step>, w: nat) returns (a: seq<Step>, b: seq<Step>)
    requires Legal(steps) && w in Exec(steps).inflight
    ensures steps == a + b && Delayed(a, b, Exec(steps).inflight[w])
    decreases |steps|
  {
    var e := Exec(steps).inflight[w];
    assert steps != [];
    var front, step := steps[..|steps| - 1], steps[|steps| - 1];
    assert steps == front + [step];
    if step == CommitEvent(w, e) {
      CommitDelays(front, w, e);
      a, b := front, [step];
    } else {
      a, b := FindCommit(front, w);
      OthersPublish(front, step, w);
      DelayedLonger(a, b, step, e);
      b := b + [step];
    }
  }

  /** Of two events in flight, publishing one does not publish the other. */
  lemma OthersPublish(front: seq<Step>, step: Step, w: nat)
    requires Legal(front) && Enabled(Exec(front), step) && w in Exec(front).inflight && w in Next(Exec(front), step).inflight
    ensures HoldsBack(Exec(front), step, Exec(front).inflight[w])
  {
    RunsKeep(front);
  }

  /** What makes a schedule late: an event committed after `a` and still withheld when `b` finishes the run. */
  ghost predicate Cause(steps: seq<Step>, a: seq<Step>, b: seq<Step>, c: seq<Step>, e: Event)
    requires Legal(steps)
  {
    steps == a + b + c && Delayed(a, b, e) && Exec(a + b).shared.run == Some(Finished) && e in Exec(steps).shared.rows
  }

  lemma {:induction false} LateCause(steps: seq<Step>) returns (a: seq<Step>, b: seq<Step>, c: seq<Step>, e: Event)
    requires Legal(steps) && Exec(steps).late
    ensures Cause(steps, a, b, c, e)
    decreases |steps|, 1
  {
    assert steps != [];
    var front, step := steps[..|steps| - 1], steps[|steps| - 1];
    assert steps == front + [step];
    a, b, c, e := LateStep(front, step);
  }

  lemma LateStep(front: seq<Step>, step: Step) returns (a: seq<Step>, b: seq<Step>, c: seq<Step>, e: Event)
    requires Legal(front + [step]) && Exec(front + [step]).late
    ensures Cause(front + [step], a, b, c, e)
    decreases |front| + 1, 0
  {
    NextOfRun(front, step);
    if Exec(front).late {
      a, b, c, e := LateCause(front);
      CauseLonger(front, step, a, b, c, e);
      c := c + [step];
    } else if step.CommitEvent? {
      a, b, c, e := CommitCause(front, step);
    } else {
      a, b, c, e := FinishCause(front);
    }
  }

  lemma CauseLonger(front: seq<Step>, step: Step, a: seq<Step>, b: seq<Step>, c: seq<Step>, e: Event)
    requires Legal(front) && Legal(front + [step]) && Cause(front, a, b, c, e)
    ensures Cause(front + [step], a, b, c + [step], e)
  {
    NextOfRun(front, step);
    RowsStay(Exec(front), step, e);
    assert a + b + (c + [step]) == a + b + c + [step];
  }

  lemma CommitCause(front: seq<Step>, step: Step) returns (a: seq<Step>, b: seq<Step>, c: seq<Step>, e: Event)
    requires Legal(front) && Legal(front + [step]) && step.CommitEvent? && Exec(front).finish != NotStarted
    ensures Cause(front + [step], a, b, c, e)
  {
    NextOfRun(front, step);
    RunsKeep(front);
    a, b, c, e := front, [], [step], step.event;
    CommitDelays(front, step.writer, e);
    assert a + b == front;
  }

  lemma FinishCause(front: seq<Step>) returns (a: seq<Step>, b: seq<Step>, c: seq<Step>, e: Event)
    requires Legal(front) && Legal(front + [CommitFinish]) && Exec(front).finish == NotStarted && Exec(front).inflight != map[]
    ensures Cause(front + [CommitFinish], a, b, c, e)
  {
    NextOfRun(front, CommitFinish);
    RunsKeep(front);
    var w :| w in Exec(front).inflight;
    e := Exec(front).inflight[w];
    a, b := FindCommit(front, w);
    DelayedLonger(a, b, CommitFinish, e);
    b, c := b + [CommitFinish], [];
    assert a + b == front + [CommitFinish] && a + b + c == a + b;
  }

  lemma RowsStay(s: State, step: Step, e: Event)
    requires Enabled(s, step) && e in s.shared.rows
    ensures e in Next(s, step).shared.rows
  {
  }

  // ---- The boundary ------------------------------------------------------------------------

  /** Every late schedule loses: some subscriber of it returns without some committed event. */
  lemma LateScheduleLoses(steps: seq<Step>) returns (run: seq<Step>, e: Event)
    requires Legal(steps) && AllWriters(steps) && Exec(steps).late
    ensures Legal(run) && Schedule(run) == steps
    ensures 0 in Exec(run).cursors && Exec(run).cursors[0].phase == Ended
    ensures e in Exec(run).shared.rows && e !in Exec(run).cursors[0].yielded
  {
    var a, b, c;
    a, b, c, e := LateCause(steps);
    run := Loses(a, b, c, e);
  }

  /** Every stream that returned in the run has yielded each committed event exactly once. */
  ghost predicate AllDelivered(run: seq<Step>)
    requires Legal(run)
  {
    forall k :: k in Exec(run).cursors && Exec(run).cursors[k].phase == Ended ==>
      multiset(Exec(run).cursors[k].yielded) == multiset(Exec(run).shared.rows)
  }

  /**
   The exact boundary.  A schedule of writers and finisher delivers each event exactly once to every
   stream that returns, in every interleaving with any number of subscribers, if and only if every
   append was published before the finish was committed and none began after it.
   */
  lemma ExactBoundary(steps: seq<Step>)
    requires Legal(steps) && AllWriters(steps)
    ensures !Exec(steps).late <==> forall run :: Legal(run) && Schedule(run) == steps ==> AllDelivered(run)
  {
    if Exec(steps).late {
      var run, e := LateScheduleLoses(steps);
      assert e in multiset(Exec(run).shared.rows) && e !in multiset(Exec(run).cursors[0].yielded);
      assert !AllDelivered(run);
    } else {
      forall run | Legal(run) && Schedule(run) == steps ensures AllDelivered(run) {
        ScheduleIsRun(run);
        forall k | k in Exec(run).cursors && Exec(run).cursors[k].phase == Ended
          ensures multiset(Exec(run).cursors[k].yielded) == multiset(Exec(run).shared.rows)
        {
          ExactlyOnce(Exec(run), k);
        }
      }
    }
  }

  // ---- How long a stream can last ----------------------------------------------------------

  /** Subscriber `k` is streaming from a finished run that is not late. */
  ghost predicate Ending(s: State, k: nat) {
    && s.finish == Published && !s.late
    && k in s.cursors && k in s.shared.queues && Live(s.cursors[k].phase)
  }

  /** Nothing that others do gives the subscriber more work. */
  lemma OthersLeaveWork(s: State, k: nat, step: Step)
    requires Inv(s) && Ending(s, k) && Enabled(s, step) && !OwnStep(k, step) && step != Drop(k)
    requires !Next(s, step).late
    ensures Ending(Next(s, step), k) && Work(Next(s, step), k) == Work(s, k)
  {
    if step.PublishFinish? {
      WaitingMore(s.shared.queues[k], Sentinel);
    }
  }

  /** The subscriber's own steps in a run. */
  function OwnSteps(steps: seq<Step>, k: nat): nat {
    if steps == [] then 0
    else OwnSteps(steps[..|steps| - 1], k) + (if OwnStep(k, steps[|steps| - 1]) then 1 else 0)
  }

  /**
   A stream from a finished run ends.  From any point on where the finish step is done, whatever the
   others do in between, the subscriber takes no more steps of its own than its work at that point, and
   while it is live every one of them has brought it closer; `NoBlockedSubscriber` says it can take one.
   */
  lemma {:induction false} StreamEnds(steps: seq<Step>, n: nat, k: nat)
    requires Legal(steps) && n <= |steps| && Legal(steps[..n]) && Ending(Exec(steps[..n]), k)
    requires !Exec(steps).late && Drop(k) !in steps[n..]
    ensures k in Exec(steps).cursors && (Ending(Exec(steps), k) || Exec(steps).cursors[k].phase == Ended)
    ensures var used := OwnSteps(steps, k) - OwnSteps(steps[..n], k);
            && used <= Work(Exec(steps[..n]), k)
            && (Ending(Exec(steps), k) ==> Work(Exec(steps), k) <= Work(Exec(steps[..n]), k) - used)
    decreases |steps|
  {
    if n == |steps| {
      assert steps[..n] == steps;
    } else {
      var front, step := steps[..|steps| - 1], steps[|steps| - 1];
      assert front[..n] == steps[..n] && steps[n..] == front[n..] + [step];
      StreamEnds(front, n, k);
      StreamStep(front, step, k);
    }
  }

  lemma StreamStep(front: seq<Step>, step: Step, k: nat)
    requires Legal(front) && Enabled(Exec(front), step) && !Next(Exec(front), step).late && step != Drop(k)
    requires k in Exec(front).cursors && (Ending(Exec(front), k) || Exec(front).cursors[k].phase == Ended)
    ensures var s, t := Exec(front), Next(Exec(front), step);
            && k in t.cursors && (Ending(t, k) || t.cursors[k].phase == Ended)
            && (OwnStep(k, step) ==> Ending(s, k))
            && (Ending(t, k) ==> Ending(s, k) && Work(t, k) <= Work(s, k) - (if OwnStep(k, step) then 1 else 0))
  {
    RunsKeep(front);
    var s := Exec(front);
    assert CursorInv(s, k);
    if Ending(s, k) {
      if OwnStep(k, step) {
        OwnStepWorks(s, k, step);
        OwnStepStays(s, k, step);
      } else {
        OthersLeaveWork(s, k, step);
      }
    } else {
      EndedStays(s, k, step);
    }
  }

  /** With the run known, a step of its own keeps the stream going or ends it. */
  lemma OwnStepStays(s: State, k: nat, step: Step)
    requires LogInv(s) && Ending(s, k) && OwnStep(k, step) && Enabled(s, step)
    ensures Ending(Next(s, step), k) || Next(s, step).cursors[k].phase == Ended
  {
  }

  lemma EndedStays(s: State, k: nat, step: Step)
    requires k in s.cursors && k !in s.shared.queues && s.cursors[k].phase == Ended && Enabled(s, step)
    ensures Next(s, step).cursors[k] == s.cursors[k] && k !in Next(s, step).shared.queues && !OwnStep(k, step)
  {
  }
}
