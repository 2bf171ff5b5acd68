/** Invariants of the network scheduler, and the run theorems that follow from them. */
module SchedulerProofs {
  import opened Common
  import opened SchedulerModel

  // ---- Invariants --------------------------------------------------------------------------

  /** Identities: the queue is ordered by arrival and holds exactly the undecided acquisitions. */
  ghost predicate QueueInv(s: State) {
    var ws := s.core.waiters;
    && (forall id: nat :: id in s.phase <==> id < s.next)
    && s.hosts.Keys == s.phase.Keys
    && (forall i, j :: 0 <= i < j < |ws| ==> ws[i].id < ws[j].id)
    && (forall i :: 0 <= i < |ws| ==>
          InPhase(s, ws[i].id, Pending) || InPhase(s, ws[i].id, Cancelled))
    && (forall i :: 0 <= i < |ws| ==> ws[i].id in s.hosts && s.hosts[ws[i].id] == ws[i].host)
    && (forall id: nat :: InPhase(s, id, Pending) ==> Queued(ws, id))
  }

  ghost predicate Queued(waiters: seq<Waiter>, id: nat) {
    exists i :: 0 <= i < |waiters| && waiters[i].id == id
  }

  ghost predicate AllPending(s: State) {
    forall i :: 0 <= i < |s.core.waiters| ==> InPhase(s, s.core.waiters[i].id, Pending)
  }

  /** Slots: every counter equals the number of live grants, and no limit is passed. */
  ghost predicate CapacityInv(c: Config, s: State) {
    && s.core.active == |Holders(s.phase)| <= c.globalLimit
    && (forall h :: h in s.core.byHost ==> 0 < s.core.byHost[h] <= c.hostLimit)
    && (forall h :: ActiveOf(s.core, h) == |HoldersOf(s.phase, s.hosts, h)|)
    && SumOf(s.core.byHost) == s.core.active
  }

  /** The history table is ordered by start time, one entry per host, and bounded. */
  ghost predicate HistoryInv(c: Config, clock: Clock, s: State) {
    var hs := s.core.history;
    && (forall i, j :: 0 <= i < j < |hs| ==> hs[i].at <= hs[j].at && hs[i].host != hs[j].host)
    && |hs| <= c.historyLimit
    && (c.interval == 0.0 ==> hs == [])
    && (forall i :: 0 <= i < |hs| ==> Past(clock, s.ticks, hs[i].at))
  }

  /** At or before the last clock reading. */
  predicate Past(clock: Clock, ticks: nat, at: real) {
    ticks > 0 && at <= clock(ticks - 1)
  }

  /** A past start is either remembered or already an interval old. */
  ghost predicate Remembered(c: Config, clock: Clock, s: State, g: Grant) {
    && s.ticks > 0 && g.at <= clock(s.ticks - 1)
    && (g.at + c.interval <= clock(s.ticks - 1)
        || (StartedAt(s.core.history, g.host).Some? && g.at <= StartedAt(s.core.history, g.host).value))
  }

  ghost predicate SpacingInv(c: Config, clock: Clock, s: State) {
    && (forall i :: 0 <= i < |s.log| ==> Remembered(c, clock, s, s.log[i]))
    && (forall i, j :: 0 <= i < j < |s.log| && s.log[i].host == s.log[j].host ==>
          s.log[i].at + c.interval <= s.log[j].at)
  }

  // ---- What keeps a waiter waiting, in the scheduler's own fields --------------------------

  /** The host has all the slots it may have. */
  predicate FullHost(c: Config, core: Core, host: Host) {
    host in core.byHost && core.byHost[host] >= c.hostLimit
  }

  /** Less than an interval has passed since this start. */
  predicate Young(c: Config, e: Start, now: real) {
    e.at + c.interval > now
  }

  predicate StartedLately(c: Config, core: Core, now: real, host: Host) {
    exists i :: 0 <= i < |core.history| && core.history[i].host == host && Young(c, core.history[i], now)
  }

  /** The host has no entry, and as many others as the table may hold cannot be forgotten yet. */
  predicate NoRoomFor(c: Config, core: Core, now: real, host: Host) {
    && (forall i :: 0 <= i < |core.history| ==> core.history[i].host != host)
    && |core.history| >= c.historyLimit
    && (forall i :: 0 <= i < |core.history| ==> Young(c, core.history[i], now))
  }

  /** A request to the host may not start at this time. */
  predicate Held(c: Config, core: Core, now: real, host: Host) {
    FullHost(c, core, host) || StartedLately(c, core, now, host) || NoRoomFor(c, core, now, host)
  }

  /** The grant went to the oldest waiter that nothing held; whoever it passed was held and has another host. */
  ghost predicate Fair(c: Config, g: Grant) {
    exists i :: && 0 <= i < |g.before.waiters|
                && g.before.waiters[i] == Waiter(g.id, g.host)
                && !Held(c, g.before, g.at, g.host)
                && (forall j :: 0 <= j < i ==>
                      && g.before.waiters[j].host != g.host
                      && Held(c, g.before, g.at, g.before.waiters[j].host))
  }

  ghost predicate FairInv(c: Config, s: State) {
    && (forall i :: 0 <= i < |s.log| ==> Fair(c, s.log[i]))
    && (forall i, j :: 0 <= i < j < |s.log| && s.log[i].host == s.log[j].host ==> s.log[i].id < s.log[j].id)
    && (forall i, k :: 0 <= i < |s.log| && 0 <= k < |s.core.waiters| && s.log[i].host == s.core.waiters[k].host ==>
          s.log[i].id < s.core.waiters[k].id)
    && (forall i :: 0 <= i < |s.log| ==> s.log[i].id < s.next)
  }

  /** No lost wake-up. */
  ghost predicate WakeInv(c: Config, clock: Clock, s: State) {
    if s.core.waiters == [] || s.core.active >= c.globalLimit then s.wakeAt == None
    else
      && s.ticks > 0
      && s.wakeAt == MinReady(c, s.core, s.core.waiters)
      && (forall i :: 0 <= i < |s.core.waiters| ==>
            !Eligible(c, s.core, clock(s.ticks - 1), s.core.waiters[i].host))
      && (forall i :: 0 <= i < |s.core.history| ==> s.core.history[i].at + c.interval > clock(s.ticks - 1))
  }

  /** What holds between two iterations of the pump. */
  ghost predicate Sound(c: Config, clock: Clock, s: State) {
    QueueInv(s) && CapacityInv(c, s) && HistoryInv(c, clock, s) && SpacingInv(c, clock, s) && FairInv(c, s)
  }

  ghost predicate Inv(c: Config, clock: Clock, s: State) {
    Sound(c, clock, s) && WakeInv(c, clock, s)
  }

  // ---- The history table -------------------------------------------------------------------

  lemma StartedAtFinds(history: seq<Start>, host: Host)
    ensures StartedAt(history, host).None? <==> forall i :: 0 <= i < |history| ==> history[i].host != host
    ensures StartedAt(history, host).Some? ==>
              exists i :: 0 <= i < |history| && history[i] == Start(host, StartedAt(history, host).value)
  {
    if history != [] && history[0].host != host {
      StartedAtFinds(history[1..], host);
      assert forall i :: 1 <= i < |history| ==> history[i] == history[1..][i - 1];
      if StartedAt(history[1..], host).Some? {
        var i :| 0 <= i < |history[1..]| && history[1..][i] == Start(host, StartedAt(history[1..], host).value);
        assert history[i + 1] == Start(host, StartedAt(history, host).value);
      }
    }
  }

  lemma WithoutAbsent(history: seq<Start>, host: Host)
    requires StartedAt(history, host).None?
    ensures Without(history, host) == history
  {
    if history != [] {
      WithoutAbsent(history[1..], host);
    }
  }

  lemma StartedAtAppend(history: seq<Start>, last: Start, host: Host)
    requires StartedAt(history, last.host).None?
    ensures StartedAt(history + [last], host) ==
            if host == last.host then Some(last.at) else StartedAt(history, host)
  {
    if history != [] {
      assert (history + [last])[1..] == history[1..] + [last];
      StartedAtAppend(history[1..], last, host);
    }
  }

  /** Pruning an ordered table removes exactly the expired entries. */
  lemma PruneIsSuffix(c: Config, history: seq<Start>, now: real) returns (k: nat)
    requires c.interval > 0.0
    requires forall i, j :: 0 <= i < j < |history| ==> history[i].at <= history[j].at
    ensures k <= |history| && Prune(c, history, now) == history[k..]
    ensures forall i :: 0 <= i < k ==> history[i].at + c.interval <= now
    ensures forall i :: k <= i < |history| ==> history[i].at + c.interval > now
  {
    if history == [] || history[0].at + c.interval > now {
      k := 0;
    } else {
      var rest := PruneIsSuffix(c, history[1..], now);
      k := rest + 1;
      assert history[1..][rest..] == history[k..];
      forall i | 1 <= i < |history| ensures history[i] == history[1..][i - 1] {}
    }
  }

  lemma StartedAtSuffix(history: seq<Start>, k: nat, host: Host)
    requires k <= |history|
    requires forall i, j :: 0 <= i < j < |history| ==> history[i].host != history[j].host
    ensures StartedAt(history[k..], host) ==
            if exists i :: 0 <= i < k && history[i].host == host then None else StartedAt(history, host)
  {
    if i :| 0 <= i < k && history[i].host == host {
      StartedAtFinds(history[k..], host);
    } else {
      StartedAtKept(history, k, host);
    }
  }

  lemma StartedAtKept(history: seq<Start>, k: nat, host: Host)
    requires k <= |history| && forall i :: 0 <= i < k ==> history[i].host != host
    ensures StartedAt(history[k..], host) == StartedAt(history, host)
  {
    if k == 0 {
      assert history[k..] == history;
    } else {
      assert history[k..] == history[1..][k - 1..];
      StartedAtKept(history[1..], k - 1, host);
    }
  }

  lemma TickKeeps(c: Config, clock: Clock, s: State)
    requires c.Valid() && Monotone(clock) && Sound(c, clock, s)
    ensures Sound(c, clock, Tick(c, clock, s))
    ensures |Tick(c, clock, s).core.history| <= |s.core.history|
    ensures forall i :: 0 <= i < |Tick(c, clock, s).core.history| ==>
                          Tick(c, clock, s).core.history[i].at + c.interval > clock(s.ticks)
  {
    var t := Tick(c, clock, s);
    assert QueueInv(t) by {
      forall id: nat ensures InPhase(t, id, Pending) == InPhase(s, id, Pending) {}
    }
    CapacitySame(c, s, t);
    FairSame(c, s, t);
    TickKeepsHistory(c, clock, s);
    forall i | 0 <= i < |s.log| ensures Remembered(c, clock, t, s.log[i]) {
      TickRemembers(c, clock, s, s.log[i]);
    }
  }

  lemma TickKeepsHistory(c: Config, clock: Clock, s: State)
    requires c.Valid() && Monotone(clock) && HistoryInv(c, clock, s)
    ensures HistoryInv(c, clock, Tick(c, clock, s))
    ensures |Tick(c, clock, s).core.history| <= |s.core.history|
    ensures forall i :: 0 <= i < |Tick(c, clock, s).core.history| ==>
                          Tick(c, clock, s).core.history[i].at + c.interval > clock(s.ticks)
  {
    assert s.ticks > 0 ==> clock(s.ticks - 1) <= clock(s.ticks);
    if c.interval > 0.0 {
      var k := PruneIsSuffix(c, s.core.history, clock(s.ticks));
    }
  }

  /** What pruning forgets is an interval old. */
  lemma TickRemembers(c: Config, clock: Clock, s: State, g: Grant)
    requires c.Valid() && Monotone(clock) && HistoryInv(c, clock, s) && Remembered(c, clock, s, g)
    ensures Remembered(c, clock, Tick(c, clock, s), g)
  {
    var now := clock(s.ticks);
    assert clock(s.ticks - 1) <= now;
    if c.interval > 0.0 {
      var k := PruneIsSuffix(c, s.core.history, now);
      StartedAtSuffix(s.core.history, k, g.host);
      StartedAtFinds(s.core.history, g.host);
    }
  }

  // ---- Capacity ----------------------------------------------------------------------------

  lemma SumRemove(m: map<Host, int>, h: Host)
    requires h in m
    ensures SumOf(m) == m[h] + SumOf(m - {h})
    decreases |m|
  {
    var k :| k in m && SumOf(m) == m[k] + SumOf(m - {k});
    if k != h {
      SumRemove(m - {k}, h);
      SumRemove(m - {h}, k);
      assert m - {k} - {h} == m - {h} - {k};
    }
  }

  lemma SumUpdate(m: map<Host, int>, h: Host, v: int)
    ensures SumOf(m[h := v]) == SumOf(m) - (if h in m then m[h] else 0) + v
  {
    SumRemove(m[h := v], h);
    assert m[h := v] - {h} == m - {h};
    if h in m {
      SumRemove(m, h);
    } else {
      assert m - {h} == m;
    }
  }

  /** A new grant adds one holder, and only for its own host. */
  lemma HoldersGrow(s: State, id: nat, host: Host)
    requires InPhase(s, id, Pending) && id in s.hosts && s.hosts[id] == host
    ensures |Holders(s.phase[id := Granted])| == |Holders(s.phase)| + 1
    ensures forall h :: |HoldersOf(s.phase[id := Granted], s.hosts, h)|
                        == |HoldersOf(s.phase, s.hosts, h)| + (if h == host then 1 else 0)
  {
    var phase' := s.phase[id := Granted];
    assert Holders(phase') == Holders(s.phase) + {id};
    forall h ensures |HoldersOf(phase', s.hosts, h)| == |HoldersOf(s.phase, s.hosts, h)| + (if h == host then 1 else 0) {
      if h == host {
        assert HoldersOf(phase', s.hosts, h) == HoldersOf(s.phase, s.hosts, h) + {id};
      } else {
        assert HoldersOf(phase', s.hosts, h) == HoldersOf(s.phase, s.hosts, h);
      }
    }
  }

  lemma HoldersShrink(s: State, id: nat)
    requires id in Holders(s.phase) && id in s.hosts
    ensures |Holders(s.phase[id := Over])| == |Holders(s.phase)| - 1
    ensures forall h :: |HoldersOf(s.phase[id := Over], s.hosts, h)|
                        == |HoldersOf(s.phase, s.hosts, h)| - (if h == s.hosts[id] then 1 else 0)
  {
    var phase' := s.phase[id := Over];
    assert Holders(phase') == Holders(s.phase) - {id};
    forall h ensures |HoldersOf(phase', s.hosts, h)|
                     == |HoldersOf(s.phase, s.hosts, h)| - (if h == s.hosts[id] then 1 else 0)
    {
      if h == s.hosts[id] {
        assert HoldersOf(phase', s.hosts, h) == HoldersOf(s.phase, s.hosts, h) - {id};
      } else {
        assert HoldersOf(phase', s.hosts, h) == HoldersOf(s.phase, s.hosts, h);
      }
    }
  }

  /** Phase changes that neither make nor end a holder leave the accounting alone. */
  lemma HoldersSame(s: State, phase': map<nat, Phase>, hosts': map<nat, Host>)
    requires Holders(phase') == Holders(s.phase)
    requires forall id :: id in Holders(s.phase) ==> (id in s.hosts <==> id in hosts') && (id in s.hosts ==> s.hosts[id] == hosts'[id])
    ensures forall h :: |HoldersOf(phase', hosts', h)| == |HoldersOf(s.phase, s.hosts, h)|
  {
    forall h ensures |HoldersOf(phase', hosts', h)| == |HoldersOf(s.phase, s.hosts, h)| {
      assert HoldersOf(phase', hosts', h) == HoldersOf(s.phase, s.hosts, h);
    }
  }

  // ---- One admission -----------------------------------------------------------------------

  /** The pump is about to admit waiter `i` at the reading it just took. */
  ghost predicate Admitting(c: Config, clock: Clock, p: State, i: nat) {
    && c.Valid() && Monotone(clock)
    && Sound(c, clock, p) && AllPending(p)
    && p.ticks > 0 && p.core.active < c.globalLimit
    && (forall k :: 0 <= k < |p.core.history| ==> p.core.history[k].at + c.interval > clock(p.ticks - 1))
    && i < |p.core.waiters|
    && FirstEligible(c, p.core, clock(p.ticks - 1), 0) == Some(i)
  }

  /** A host that may start now has no entry left in the pruned table. */
  lemma EligibleIsForgotten(c: Config, clock: Clock, p: State, i: nat)
    requires Admitting(c, clock, p, i)
    ensures StartedAt(p.core.history, p.core.waiters[i].host).None?
    ensures c.interval > 0.0 ==> |p.core.history| < c.historyLimit
  {
    StartedAtFinds(p.core.history, p.core.waiters[i].host);
  }

  lemma AdmitKeepsQueue(c: Config, p: State, i: nat, now: real)
    requires QueueInv(p) && AllPending(p) && i < |p.core.waiters|
    ensures QueueInv(Admit(c, p, i, now)) && AllPending(Admit(c, p, i, now))
  {
    var a := Admit(c, p, i, now);
    var ws, ws' := p.core.waiters, a.core.waiters;
    forall k | 0 <= k < |ws'|
      ensures ws'[k] == ws[if k < i then k else k + 1] && InPhase(a, ws'[k].id, Pending)
    {
      assert InPhase(p, ws[if k < i then k else k + 1].id, Pending);
    }
    forall id: nat | InPhase(a, id, Pending) ensures Queued(ws', id) {
      assert InPhase(p, id, Pending);
      QueuedBeside(ws, i, id);
    }
  }

  lemma QueuedBeside(ws: seq<Waiter>, i: nat, id: nat)
    requires Queued(ws, id) && i < |ws| && ws[i].id != id
    ensures Queued(ws[..i] + ws[i + 1..], id)
  {
    var k :| 0 <= k < |ws| && ws[k].id == id;
    assert (ws[..i] + ws[i + 1..])[if k < i then k else k - 1] == ws[k];
  }

  lemma AdmitKeepsCapacity(c: Config, clock: Clock, p: State, i: nat)
    requires Admitting(c, clock, p, i)
    ensures CapacityInv(c, Admit(c, p, i, clock(p.ticks - 1)))
  {
    GrantCounts(c, p, i, clock(p.ticks - 1));
  }

  lemma GrantCounts(c: Config, p: State, i: nat, now: real)
    requires QueueInv(p) && CapacityInv(c, p) && AllPending(p) && i < |p.core.waiters|
    requires p.core.active < c.globalLimit && ActiveOf(p.core, p.core.waiters[i].host) < c.hostLimit
    ensures CapacityInv(c, Admit(c, p, i, now))
  {
    var a := Admit(c, p, i, now);
    var w := p.core.waiters[i];
    assert InPhase(p, w.id, Pending);
    HoldersGrow(p, w.id, w.host);
    SumUpdate(p.core.byHost, w.host, ActiveOf(p.core, w.host) + 1);
    forall h ensures ActiveOf(a.core, h) == |HoldersOf(a.phase, a.hosts, h)| {
      assert ActiveOf(p.core, h) == |HoldersOf(p.phase, p.hosts, h)|;
    }
  }

  lemma AdmitKeepsHistory(c: Config, clock: Clock, p: State, i: nat)
    requires Admitting(c, clock, p, i)
    ensures HistoryInv(c, clock, Admit(c, p, i, clock(p.ticks - 1)))
  {
    EligibleIsForgotten(c, clock, p, i);
    WithoutAbsent(p.core.history, p.core.waiters[i].host);
    StartedAtFinds(p.core.history, p.core.waiters[i].host);
  }

  lemma AdmitKeepsSpacing(c: Config, clock: Clock, p: State, i: nat)
    requires Admitting(c, clock, p, i)
    ensures SpacingInv(c, clock, Admit(c, p, i, clock(p.ticks - 1)))
  {
    EligibleIsForgotten(c, clock, p, i);
    ForgottenMayStart(c, clock, p, i);
  }

  /** A past start stays remembered, and so does the new one. */
  lemma AdmitRemembers(c: Config, clock: Clock, p: State, i: nat, g: Grant)
    requires c.interval >= 0.0 && p.ticks > 0 && i < |p.core.waiters|
    requires StartedAt(p.core.history, p.core.waiters[i].host).None?
    requires Remembered(c, clock, p, g) || (g.host == p.core.waiters[i].host && g.at == clock(p.ticks - 1))
    ensures Remembered(c, clock, Admit(c, p, i, clock(p.ticks - 1)), g)
    ensures Remembered(c, clock, p, g) && g.host == p.core.waiters[i].host ==> g.at + c.interval <= clock(p.ticks - 1)
  {
    var w := p.core.waiters[i];
    WithoutAbsent(p.core.history, w.host);
    StartedAtAppend(p.core.history, Start(w.host, clock(p.ticks - 1)), g.host);
  }

  /** A host the table has forgotten is one interval past its last start. */
  lemma ForgottenMayStart(c: Config, clock: Clock, p: State, i: nat)
    requires c.Valid() && SpacingInv(c, clock, p) && p.ticks > 0 && i < |p.core.waiters|
    requires StartedAt(p.core.history, p.core.waiters[i].host).None?
    ensures SpacingInv(c, clock, Admit(c, p, i, clock(p.ticks - 1)))
  {
    var now := clock(p.ticks - 1);
    var a := Admit(c, p, i, now);
    forall k | 0 <= k < |a.log|
      ensures Remembered(c, clock, a, a.log[k])
      ensures k < |p.log| && a.log[k].host == p.core.waiters[i].host ==> a.log[k].at + c.interval <= now
    {
      if k < |p.log| {
        assert a.log[k] == p.log[k];
      }
      AdmitRemembers(c, clock, p, i, a.log[k]);
    }
    forall k, j | 0 <= k < j < |a.log| && a.log[k].host == a.log[j].host
      ensures a.log[k].at + c.interval <= a.log[j].at
    {
      assert a.log[k] == p.log[k];
      if j < |p.log| {
        assert a.log[j] == p.log[j];
      }
    }
  }

  /** One entry per host, all of them young: the table right after it was pruned. */
  ghost predicate Pruned(c: Config, history: seq<Start>, now: real) {
    && (forall i, j :: 0 <= i < j < |history| ==> history[i].host != history[j].host)
    && (c.interval == 0.0 ==> history == [])
    && (forall i :: 0 <= i < |history| ==> Young(c, history[i], now))
  }

  /** On a pruned table a host is eligible exactly if nothing holds it. */
  lemma EligibleIsFree(c: Config, core: Core, now: real, host: Host)
    requires c.Valid() && Pruned(c, core.history, now)
    ensures Eligible(c, core, now, host) <==> !Held(c, core, now, host)
  {
    StartedAtFinds(core.history, host);
  }

  lemma FirstIsFair(c: Config, core: Core, now: real, i: nat, g: Grant)
    requires c.Valid() && Pruned(c, core.history, now)
    requires i < |core.waiters| && FirstEligible(c, core, now, 0) == Some(i)
    requires g == Grant(core.waiters[i].id, core.waiters[i].host, now, core)
    ensures Fair(c, g)
  {
    assert g.before.waiters[i] == Waiter(g.id, g.host);
    EligibleIsFree(c, core, now, g.host);
    forall j | 0 <= j < i ensures core.waiters[j].host != g.host && Held(c, core, now, core.waiters[j].host) {
      EligibleIsFree(c, core, now, core.waiters[j].host);
    }
  }

  lemma AdmitKeepsFair(c: Config, clock: Clock, p: State, i: nat)
    requires Admitting(c, clock, p, i)
    ensures FairInv(c, Admit(c, p, i, clock(p.ticks - 1)))
  {
    assert Pruned(c, p.core.history, clock(p.ticks - 1));
    GrantIsFair(c, p, i, clock(p.ticks - 1));
  }

  lemma GrantIsFair(c: Config, p: State, i: nat, now: real)
    requires QueueInv(p) && FairInv(c, p) && i < |p.core.waiters|
    requires c.Valid() && Pruned(c, p.core.history, now) && FirstEligible(c, p.core, now, 0) == Some(i)
    ensures FairInv(c, Admit(c, p, i, now))
  {
    var a := Admit(c, p, i, now);
    var ws, ws' := p.core.waiters, a.core.waiters;
    var g := a.log[|p.log|];
    FirstIsFair(c, p.core, now, i, g);
    GrantIsBehind(c, p, i, now);
    forall k, j | 0 <= k < j < |a.log| && a.log[k].host == a.log[j].host ensures a.log[k].id < a.log[j].id {
      assert a.log[k] == p.log[k];
      if j < |p.log| {
        assert a.log[j] == p.log[j];
      }
    }
    forall k | 0 <= k < |a.log| ensures Fair(c, a.log[k]) && a.log[k].id < a.next {
      assert k < |p.log| ==> a.log[k] == p.log[k];
    }
  }

  /** Whoever still waits for a host arrived after every grant to that host. */
  lemma GrantIsBehind(c: Config, p: State, i: nat, now: real)
    requires QueueInv(p) && FairInv(c, p) && i < |p.core.waiters|
    requires FirstEligible(c, p.core, now, 0) == Some(i)
    ensures var a := Admit(c, p, i, now);
            forall k, m :: 0 <= k < |a.log| && 0 <= m < |a.core.waiters| && a.log[k].host == a.core.waiters[m].host ==>
              a.log[k].id < a.core.waiters[m].id
  {
    var a := Admit(c, p, i, now);
    var ws, ws' := p.core.waiters, a.core.waiters;
    forall k, m | 0 <= k < |a.log| && 0 <= m < |ws'| && a.log[k].host == ws'[m].host
      ensures a.log[k].id < ws'[m].id
    {
      assert ws'[m] == ws[if m < i then m else m + 1];
      if k < |p.log| {
        assert a.log[k] == p.log[k];
      } else {
        assert m >= i;
      }
    }
  }

  lemma AdmitKeeps(c: Config, clock: Clock, p: State, i: nat)
    requires Admitting(c, clock, p, i)
    ensures Sound(c, clock, Admit(c, p, i, clock(p.ticks - 1)))
    ensures AllPending(Admit(c, p, i, clock(p.ticks - 1)))
  {
    AdmitKeepsQueue(c, p, i, clock(p.ticks - 1));
    AdmitKeepsCapacity(c, clock, p, i);
    AdmitKeepsHistory(c, clock, p, i);
    AdmitKeepsSpacing(c, clock, p, i);
    AdmitKeepsFair(c, clock, p, i);
  }

  // ---- The pump ----------------------------------------------------------------------------

  lemma {:induction false} PumpLoopKeeps(c: Config, clock: Clock, s: State)
    requires c.Valid() && Monotone(clock)
    requires Sound(c, clock, s) && AllPending(s) && s.wakeAt == None
    ensures Inv(c, clock, PumpLoop(c, clock, s))
    ensures AllPending(PumpLoop(c, clock, s))
    ensures s.log <= PumpLoop(c, clock, s).log
    decreases |s.core.waiters|
  {
    if s.core.active < c.globalLimit && s.core.waiters != [] {
      var p := Tick(c, clock, s);
      var selected := FirstEligible(c, p.core, clock(s.ticks), 0);
      if selected.None? {
        PumpLoopIdles(c, clock, s);
      } else {
        PumpLoopAdmits(c, clock, s, selected.value);
        PumpLoopKeeps(c, clock, Admit(c, p, selected.value, clock(s.ticks)));
      }
    }
  }

  lemma TickKeepsPending(c: Config, clock: Clock, s: State)
    requires AllPending(s)
    ensures AllPending(Tick(c, clock, s))
  {
    var p := Tick(c, clock, s);
    forall i | 0 <= i < |p.core.waiters| ensures InPhase(p, p.core.waiters[i].id, Pending) {
      assert InPhase(s, s.core.waiters[i].id, Pending);
    }
  }

  lemma PumpLoopIdles(c: Config, clock: Clock, s: State)
    requires c.Valid() && Monotone(clock)
    requires Sound(c, clock, s) && AllPending(s)
    requires s.core.active < c.globalLimit && s.core.waiters != []
    requires FirstEligible(c, Tick(c, clock, s).core, clock(s.ticks), 0).None?
    ensures Inv(c, clock, PumpLoop(c, clock, s)) && AllPending(PumpLoop(c, clock, s))
    ensures PumpLoop(c, clock, s).log == s.log
  {
    var p := Tick(c, clock, s);
    TickKeeps(c, clock, s);
    TickKeepsPending(c, clock, s);
    WakeAtIsInert(c, clock, p, MinReady(c, p.core, p.core.waiters));
    ArmingWakes(c, clock, p);
  }

  lemma PumpLoopAdmits(c: Config, clock: Clock, s: State, i: nat)
    requires c.Valid() && Monotone(clock)
    requires Sound(c, clock, s) && AllPending(s)
    requires s.core.active < c.globalLimit && s.core.waiters != []
    requires FirstEligible(c, Tick(c, clock, s).core, clock(s.ticks), 0) == Some(i)
    ensures Sound(c, clock, Admit(c, Tick(c, clock, s), i, clock(s.ticks)))
    ensures AllPending(Admit(c, Tick(c, clock, s), i, clock(s.ticks)))
  {
    TickKeeps(c, clock, s);
    TickKeepsPending(c, clock, s);
    AdmitKeeps(c, clock, Tick(c, clock, s), i);
  }

  lemma ArmingWakes(c: Config, clock: Clock, p: State)
    requires p.ticks > 0 && p.core.active < c.globalLimit && p.core.waiters != []
    requires FirstEligible(c, p.core, clock(p.ticks - 1), 0).None?
    requires forall i :: 0 <= i < |p.core.history| ==> p.core.history[i].at + c.interval > clock(p.ticks - 1)
    ensures WakeInv(c, clock, p.(wakeAt := MinReady(c, p.core, p.core.waiters)))
  {
  }

  /** Arming or cancelling the timer touches nothing else. */
  lemma WakeAtIsInert(c: Config, clock: Clock, s: State, wakeAt: Option<real>)
    requires Sound(c, clock, s)
    ensures Sound(c, clock, s.(wakeAt := wakeAt))
    ensures AllPending(s) ==> AllPending(s.(wakeAt := wakeAt))
  {
    var r := s.(wakeAt := wakeAt);
    assert QueueInv(r) by {
      forall id: nat, ph: Phase ensures InPhase(r, id, ph) == InPhase(s, id, ph) {}
    }
    forall i | 0 <= i < |s.log| ensures Remembered(c, clock, r, s.log[i]) {
      assert Remembered(c, clock, s, s.log[i]);
    }
  }

  // ---- Steps -------------------------------------------------------------------------------

  predicate Sorted(waiters: seq<Waiter>) {
    forall i, j :: 0 <= i < j < |waiters| ==> waiters[i].id < waiters[j].id
  }

  /** The queue after a removal is a subsequence of the queue before it. */
  predicate SubQueue(small: seq<Waiter>, big: seq<Waiter>) {
    Sorted(small) && forall w :: w in small ==> w in big
  }

  lemma DiscardFacts(waiters: seq<Waiter>, phase: map<nat, Phase>)
    requires Sorted(waiters)
    ensures SubQueue(Discard(waiters, phase), waiters)
    ensures forall w :: w in Discard(waiters, phase) <==>
                          w in waiters && !(w.id in phase && phase[w.id] == Cancelled)
  {
    if waiters != [] {
      DiscardFacts(waiters[1..], phase);
      assert forall w :: w in waiters <==> w == waiters[0] || w in waiters[1..];
    }
  }

  lemma RemoveFacts(waiters: seq<Waiter>, id: nat)
    requires Sorted(waiters)
    ensures SubQueue(RemoveWaiter(waiters, id), waiters)
    ensures forall w :: w in RemoveWaiter(waiters, id) <==> w in waiters && w.id != id
  {
    if waiters != [] {
      HeadIsOldest(waiters);
      if waiters[0].id != id {
        RemoveFacts(waiters[1..], id);
        HeadStays(waiters, RemoveWaiter(waiters[1..], id));
      }
    }
  }

  /** The oldest waiter in front of what is left of the others. */
  lemma HeadStays(waiters: seq<Waiter>, rest: seq<Waiter>)
    requires Sorted(waiters) && waiters != [] && SubQueue(rest, waiters[1..])
    ensures SubQueue([waiters[0]] + rest, waiters)
    ensures forall w :: w in [waiters[0]] + rest <==> w == waiters[0] || w in rest
  {
    HeadIsOldest(waiters);
    var all := [waiters[0]] + rest;
    forall j | 0 < j < |all| ensures waiters[0].id < all[j].id {
      assert all[j] in rest;
    }
  }

  lemma HeadIsOldest(waiters: seq<Waiter>)
    requires Sorted(waiters) && waiters != []
    ensures Sorted(waiters[1..])
    ensures forall w :: w in waiters <==> w == waiters[0] || w in waiters[1..]
    ensures forall w :: w in waiters[1..] ==> waiters[0].id < w.id
  {
    forall w | w in waiters[1..] ensures waiters[0].id < w.id {
      var k :| 0 <= k < |waiters[1..]| && waiters[1..][k] == w;
      assert waiters[k + 1] == w;
    }
  }

  /** Shrinking the queue and deciding the removed acquisitions keeps everything but the queue's own facts. */
  lemma ShrinkKeeps(c: Config, clock: Clock, s: State, waiters: seq<Waiter>, phase: map<nat, Phase>)
    requires Sound(c, clock, s)
    requires SubQueue(waiters, s.core.waiters)
    requires phase.Keys == s.phase.Keys && Holders(phase) == Holders(s.phase)
    requires forall w :: w in waiters ==> w.id in phase && (phase[w.id] == Pending || phase[w.id] == Cancelled)
    requires forall id: nat :: id in phase && phase[id] == Pending ==> Queued(waiters, id)
    ensures Sound(c, clock, s.(core := s.core.(waiters := waiters), phase := phase))
  {
    var r := s.(core := s.core.(waiters := waiters), phase := phase);
    ShrinkKeepsQueue(s, waiters, phase);
    CapacitySame(c, s, r);
    HistorySame(c, clock, s, r);
    SpacingSame(c, clock, s, r);
    FairSame(c, s, r);
  }

  lemma ShrinkKeepsQueue(s: State, waiters: seq<Waiter>, phase: map<nat, Phase>)
    requires QueueInv(s) && SubQueue(waiters, s.core.waiters) && phase.Keys == s.phase.Keys
    requires forall w :: w in waiters ==> w.id in phase && (phase[w.id] == Pending || phase[w.id] == Cancelled)
    requires forall id: nat :: id in phase && phase[id] == Pending ==> Queued(waiters, id)
    ensures QueueInv(s.(core := s.core.(waiters := waiters), phase := phase))
  {
    forall i | 0 <= i < |waiters| ensures exists k :: 0 <= k < |s.core.waiters| && s.core.waiters[k] == waiters[i] {
      assert waiters[i] in s.core.waiters;
    }
  }

  /** The accounting looks at the counters and at who holds a slot. */
  lemma CapacitySame(c: Config, s: State, r: State)
    requires CapacityInv(c, s)
    requires r.core.active == s.core.active && r.core.byHost == s.core.byHost
    requires Holders(r.phase) == Holders(s.phase) && r.hosts == s.hosts
    ensures CapacityInv(c, r)
  {
    HoldersSame(s, r.phase, r.hosts);
    forall h ensures ActiveOf(r.core, h) == |HoldersOf(r.phase, r.hosts, h)| {
      assert ActiveOf(s.core, h) == |HoldersOf(s.phase, s.hosts, h)|;
    }
  }

  lemma HistorySame(c: Config, clock: Clock, s: State, r: State)
    requires HistoryInv(c, clock, s) && r.core.history == s.core.history && r.ticks == s.ticks
    ensures HistoryInv(c, clock, r)
  {
    assert r.core.history == s.core.history;
    forall i | 0 <= i < |r.core.history| ensures Past(clock, r.ticks, r.core.history[i].at) {
      assert Past(clock, s.ticks, s.core.history[i].at);
    }
  }

  /** The spacing argument looks at the log, the table and the clock. */
  lemma SpacingSame(c: Config, clock: Clock, s: State, r: State)
    requires SpacingInv(c, clock, s)
    requires r.log == s.log && r.core.history == s.core.history && r.ticks == s.ticks
    ensures SpacingInv(c, clock, r)
  {
    forall i | 0 <= i < |s.log| ensures Remembered(c, clock, r, s.log[i]) {
      assert Remembered(c, clock, s, s.log[i]);
    }
  }

  /** A queue that only lost members stays behind the grants. */
  lemma FairSame(c: Config, s: State, r: State)
    requires FairInv(c, s) && r.log == s.log && r.next == s.next
    requires forall w :: w in r.core.waiters ==> w in s.core.waiters
    ensures FairInv(c, r)
  {
    forall i, k | 0 <= i < |r.log| && 0 <= k < |r.core.waiters| && r.log[i].host == r.core.waiters[k].host
      ensures r.log[i].id < r.core.waiters[k].id
    {
      assert r.core.waiters[k] in s.core.waiters;
    }
  }

  lemma PumpKeeps(c: Config, clock: Clock, s: State)
    requires c.Valid() && Monotone(clock) && Sound(c, clock, s)
    ensures Inv(c, clock, Pump(c, clock, s)) && AllPending(Pump(c, clock, s))
    ensures s.log <= Pump(c, clock, s).log
  {
    PrepareKeeps(c, clock, s);
    PumpLoopKeeps(c, clock, Prepare(s));
  }

  lemma PrepareKeeps(c: Config, clock: Clock, s: State)
    requires Sound(c, clock, s)
    ensures Sound(c, clock, Prepare(s)) && AllPending(Prepare(s))
  {
    WakeAtIsInert(c, clock, s, None);
    var ws := Discard(s.core.waiters, s.phase);
    DiscardFacts(s.core.waiters, s.phase);
    forall w | w in ws ensures InPhase(s, w.id, Pending) {
      var i :| 0 <= i < |s.core.waiters| && s.core.waiters[i] == w;
      assert InPhase(s, s.core.waiters[i].id, Pending) || InPhase(s, s.core.waiters[i].id, Cancelled);
    }
    forall id: nat | id in s.phase && s.phase[id] == Pending ensures Queued(ws, id) {
      assert InPhase(s, id, Pending) && Queued(s.core.waiters, id);
      var i :| 0 <= i < |s.core.waiters| && s.core.waiters[i].id == id;
      assert s.core.waiters[i] in ws;
    }
    ShrinkKeeps(c, clock, s.(wakeAt := None), ws, s.phase);
    forall i | 0 <= i < |ws| ensures InPhase(Prepare(s), ws[i].id, Pending) {
      assert ws[i] in ws;
    }
  }

  lemma QueuedLonger(ws: seq<Waiter>, ws': seq<Waiter>, id: nat)
    requires Queued(ws, id) && ws <= ws'
    ensures Queued(ws', id)
  {
    var i :| 0 <= i < |ws| && ws[i].id == id;
    assert ws'[i].id == id;
  }

  /** A new waiter joins at the end of the queue. */
  lemma EnqueueKeepsQueue(s: State, host: Host)
    requires QueueInv(s)
    ensures QueueInv(Enqueue(s, host))
  {
    var r := Enqueue(s, host);
    var ws, ws' := s.core.waiters, r.core.waiters;
    forall i | 0 <= i < |ws'| ensures InPhase(r, ws'[i].id, Pending) || InPhase(r, ws'[i].id, Cancelled) {
      if i < |ws| {
        assert InPhase(s, ws[i].id, Pending) || InPhase(s, ws[i].id, Cancelled);
      }
    }
    forall id: nat | InPhase(r, id, Pending) ensures Queued(ws', id) {
      if id == s.next {
        assert ws'[|ws|].id == id;
      } else {
        assert InPhase(s, id, Pending) && Queued(ws, id);
        QueuedLonger(ws, ws', id);
      }
    }
  }

  lemma EnqueueKeepsCapacity(c: Config, s: State, host: Host)
    requires QueueInv(s) && CapacityInv(c, s)
    ensures CapacityInv(c, Enqueue(s, host))
  {
    var r := Enqueue(s, host);
    assert Holders(r.phase) == Holders(s.phase);
    HoldersSame(s, r.phase, r.hosts);
    forall h ensures ActiveOf(r.core, h) == |HoldersOf(r.phase, r.hosts, h)| {
      assert ActiveOf(s.core, h) == |HoldersOf(s.phase, s.hosts, h)|;
    }
  }

  lemma EnqueueKeeps(c: Config, clock: Clock, s: State, host: Host)
    requires Sound(c, clock, s)
    ensures Sound(c, clock, Enqueue(s, host))
  {
    EnqueueKeepsQueue(s, host);
    EnqueueKeepsCapacity(c, s, host);
    HistorySame(c, clock, s, Enqueue(s, host));
    SpacingSame(c, clock, s, Enqueue(s, host));
    EnqueueKeepsFair(c, s, host);
  }

  /** A newcomer stands behind all grants. */
  lemma EnqueueKeepsFair(c: Config, s: State, host: Host)
    requires FairInv(c, s)
    ensures FairInv(c, Enqueue(s, host))
  {
  }

  /** The underflow error cannot happen while the acquisition owns its slot. */
  lemma HolderCanRelease(c: Config, clock: Clock, s: State, id: nat)
    requires Sound(c, clock, s) && id in Holders(s.phase)
    ensures id in s.hosts && CanRelease(s.core, s.hosts[id])
  {
    var h := s.hosts[id];
    assert id in HoldersOf(s.phase, s.hosts, h);
    assert ActiveOf(s.core, h) == |HoldersOf(s.phase, s.hosts, h)|;
  }

  lemma ReleaseKeeps(c: Config, clock: Clock, s: State, id: nat)
    requires Sound(c, clock, s) && id in Holders(s.phase)
    requires id in s.hosts && CanRelease(s.core, s.hosts[id])
    ensures Sound(c, clock, s.(core := ReleaseCore(s.core, s.hosts[id]), phase := s.phase[id := Over]))
  {
    var h0 := s.hosts[id];
    var r := s.(core := ReleaseCore(s.core, h0), phase := s.phase[id := Over]);
    ReleaseKeepsCapacity(c, s, id);
    ReleaseKeepsQueue(s, id, ReleaseCore(s.core, h0));
    HistorySame(c, clock, s, r);
    SpacingSame(c, clock, s, r);
    FairSame(c, s, r);
  }

  lemma ReleaseKeepsCapacity(c: Config, s: State, id: nat)
    requires CapacityInv(c, s) && id in Holders(s.phase)
    requires id in s.hosts && CanRelease(s.core, s.hosts[id])
    ensures CapacityInv(c, s.(core := ReleaseCore(s.core, s.hosts[id]), phase := s.phase[id := Over]))
  {
    var h0 := s.hosts[id];
    var r := s.(core := ReleaseCore(s.core, h0), phase := s.phase[id := Over]);
    HoldersShrink(s, id);
    SumUpdate(s.core.byHost, h0, s.core.byHost[h0] - 1);
    SumRemove(s.core.byHost, h0);
    forall h ensures ActiveOf(r.core, h) == |HoldersOf(r.phase, r.hosts, h)| {
      assert ActiveOf(s.core, h) == |HoldersOf(s.phase, s.hosts, h)|;
    }
  }

  lemma ReleaseKeepsQueue(s: State, id: nat, core: Core)
    requires QueueInv(s) && id in Holders(s.phase) && core.waiters == s.core.waiters
    ensures QueueInv(s.(core := core, phase := s.phase[id := Over]))
  {
    var r := s.(core := core, phase := s.phase[id := Over]);
    forall i | 0 <= i < |r.core.waiters|
      ensures InPhase(r, r.core.waiters[i].id, Pending) || InPhase(r, r.core.waiters[i].id, Cancelled)
    {
      assert InPhase(s, s.core.waiters[i].id, Pending) || InPhase(s, s.core.waiters[i].id, Cancelled);
    }
    forall x: nat | InPhase(r, x, Pending) ensures Queued(r.core.waiters, x) {
      assert InPhase(s, x, Pending);
    }
  }

  lemma UnwindKeeps(c: Config, clock: Clock, s: State, id: nat)
    requires Sound(c, clock, s) && InPhase(s, id, Cancelled)
    ensures Sound(c, clock, s.(core := s.core.(waiters := RemoveWaiter(s.core.waiters, id)), phase := s.phase[id := Over]))
  {
    var ws := RemoveWaiter(s.core.waiters, id);
    var phase := s.phase[id := Over];
    assert Holders(phase) == Holders(s.phase);
    UnwindQueue(s, id);
    ShrinkKeeps(c, clock, s, ws, phase);
  }

  /** Who is left in the queue is undecided, and who is undecided is left in it. */
  lemma UnwindQueue(s: State, id: nat)
    requires QueueInv(s) && InPhase(s, id, Cancelled)
    ensures var ws, phase := RemoveWaiter(s.core.waiters, id), s.phase[id := Over];
            && SubQueue(ws, s.core.waiters)
            && (forall w :: w in ws ==> w.id in phase && (phase[w.id] == Pending || phase[w.id] == Cancelled))
            && (forall x: nat :: x in phase && phase[x] == Pending ==> Queued(ws, x))
  {
    var ws := RemoveWaiter(s.core.waiters, id);
    var phase := s.phase[id := Over];
    RemoveFacts(s.core.waiters, id);
    forall w | w in ws ensures w.id in phase && (phase[w.id] == Pending || phase[w.id] == Cancelled) {
      WaiterPhase(s, w);
    }
    forall x: nat | x in phase && phase[x] == Pending ensures Queued(ws, x) {
      assert InPhase(s, x, Pending) && Queued(s.core.waiters, x);
      var i :| 0 <= i < |s.core.waiters| && s.core.waiters[i].id == x;
      assert s.core.waiters[i] in ws;
    }
  }

  lemma WaiterPhase(s: State, w: Waiter)
    requires QueueInv(s) && w in s.core.waiters
    ensures InPhase(s, w.id, Pending) || InPhase(s, w.id, Cancelled)
  {
    var i :| 0 <= i < |s.core.waiters| && s.core.waiters[i] == w;
    WaiterIsUndecided(s, i);
  }

  /** A future changes state without the scheduler running: cancelled while waiting, or resumed. */
  lemma PhaseKeeps(c: Config, clock: Clock, s: State, id: nat, to: Phase)
    requires Inv(c, clock, s)
    requires (to == Cancelled && InPhase(s, id, Pending)) || (to == Running && InPhase(s, id, Granted))
    ensures Inv(c, clock, s.(phase := s.phase[id := to]))
  {
    var r := s.(phase := s.phase[id := to]);
    assert Holders(r.phase) == Holders(s.phase);
    PhaseQueue(s, id, to);
    ShrinkKeeps(c, clock, s, s.core.waiters, r.phase);
  }

  lemma PhaseQueue(s: State, id: nat, to: Phase)
    requires QueueInv(s)
    requires (to == Cancelled && InPhase(s, id, Pending)) || (to == Running && InPhase(s, id, Granted))
    ensures var phase := s.phase[id := to];
            && (forall w :: w in s.core.waiters ==> w.id in phase && (phase[w.id] == Pending || phase[w.id] == Cancelled))
            && (forall x: nat :: x in phase && phase[x] == Pending ==> Queued(s.core.waiters, x))
  {
    var phase := s.phase[id := to];
    forall w | w in s.core.waiters ensures w.id in phase && (phase[w.id] == Pending || phase[w.id] == Cancelled) {
      WaiterPhase(s, w);
    }
    forall x: nat | x in phase && phase[x] == Pending ensures Queued(s.core.waiters, x) {
      assert InPhase(s, x, Pending);
    }
  }

  lemma NextKeeps(c: Config, clock: Clock, s: State, step: Step)
    requires c.Valid() && Monotone(clock) && Inv(c, clock, s) && Enabled(s, step)
    ensures Inv(c, clock, Next(c, clock, s, step))
    ensures s.log <= Next(c, clock, s, step).log
  {
    match step
    case Acquire(host) =>
      EnqueueKeeps(c, clock, s, host);
      PumpKeeps(c, clock, Enqueue(s, host));
    case CancelPending(id) => PhaseKeeps(c, clock, s, id, Cancelled);
    case Unwind(id) =>
      UnwindKeeps(c, clock, s, id);
      PumpKeeps(c, clock, s.(core := s.core.(waiters := RemoveWaiter(s.core.waiters, id)), phase := s.phase[id := Over]));
    case Resume(id) => PhaseKeeps(c, clock, s, id, Running);
    case CancelGranted(id) => ReleaseSlotKeeps(c, clock, s, id);
    case Exit(id) => ReleaseSlotKeeps(c, clock, s, id);
    case Fire =>
      WakeAtIsInert(c, clock, s, None);
      PumpKeeps(c, clock, s.(wakeAt := None));
  }

  lemma ReleaseSlotKeeps(c: Config, clock: Clock, s: State, id: nat)
    requires c.Valid() && Monotone(clock) && Inv(c, clock, s) && id in Holders(s.phase)
    ensures Inv(c, clock, ReleaseSlot(c, clock, s, id))
    ensures s.log <= ReleaseSlot(c, clock, s, id).log
  {
    HolderCanRelease(c, clock, s, id);
    ReleaseKeeps(c, clock, s, id);
    PumpKeeps(c, clock, s.(core := ReleaseCore(s.core, s.hosts[id]), phase := s.phase[id := Over]));
  }

  /** The invariant holds after every legal run. */
  lemma {:induction false} RunsKeep(c: Config, clock: Clock, steps: seq<Step>)
    requires c.Valid() && Monotone(clock) && Legal(c, clock, steps)
    ensures Inv(c, clock, Exec(c, clock, steps))
  {
    if steps == [] {
      assert Holders(INITIAL.phase) == {};
      forall h ensures |HoldersOf(INITIAL.phase, INITIAL.hosts, h)| == 0 {
        assert HoldersOf(INITIAL.phase, INITIAL.hosts, h) == {};
      }
    } else {
      var front := steps[..|steps| - 1];
      RunsKeep(c, clock, front);
      NextKeeps(c, clock, Exec(c, clock, front), steps[|steps| - 1]);
    }
  }

  /** `MinReady` is the minimum it claims to be, and is absent exactly when every host is saturated. */
  lemma {:induction false} MinReadyIsMinimum(c: Config, core: Core, waiters: seq<Waiter>)
    ensures var r := MinReady(c, core, waiters);
            && (r.None? <==> forall w :: w in waiters ==> Saturated(c, core, w.host))
            && (r.Some? ==>
                  && (exists w :: w in waiters && !Saturated(c, core, w.host) && ReadyAt(c, core, w.host) == r.value)
                  && (forall w :: w in waiters && !Saturated(c, core, w.host) ==> r.value <= ReadyAt(c, core, w.host)))
  {
    if waiters != [] {
      var front, last := waiters[..|waiters| - 1], waiters[|waiters| - 1];
      assert waiters == front + [last];
      assert forall w :: w in waiters <==> w in front || w == last;
      MinReadyIsMinimum(c, core, front);
    }
  }

  // ---- Run theorems ------------------------------------------------------------------------

  /**
   No lost wake-up.  Whenever someone waits and a global slot is free, nobody waiting was eligible
   at the last reading, and either the timer is armed at the minimum ready time, or every waiting
   host is saturated.  In both other cases a holder still owes a release.
   */
  lemma NoLostWakeup(c: Config, clock: Clock, steps: seq<Step>)
    requires c.Valid() && Monotone(clock) && Legal(c, clock, steps)
    ensures var s := Exec(c, clock, steps);
            s.core.waiters != [] ==>
              || (s.core.active == c.globalLimit && Holders(s.phase) != {})
              || (&& s.wakeAt == None && Holders(s.phase) != {}
                  && forall w :: w in s.core.waiters ==> Saturated(c, s.core, w.host))
              || (&& s.wakeAt.Some? && s.wakeAt == MinReady(c, s.core, s.core.waiters)
                  && s.ticks > 0 && clock(s.ticks - 1) < s.wakeAt.value)
    ensures var s := Exec(c, clock, steps);
            s.core.active < c.globalLimit && s.core.waiters != [] ==>
              s.ticks > 0 && forall w :: w in s.core.waiters ==> !Eligible(c, s.core, clock(s.ticks - 1), w.host)
    ensures var s := Exec(c, clock, steps);
            forall id: nat :: InPhase(s, id, Pending) ==> Queued(s.core.waiters, id)
  {
    RunsKeep(c, clock, steps);
    var s := Exec(c, clock, steps);
    if s.core.waiters != [] {
      if s.core.active >= c.globalLimit {
        assert |Holders(s.phase)| > 0;
      } else if s.wakeAt.None? {
        MinReadyIsMinimum(c, s.core, s.core.waiters);
        SaturatedHasHolder(c, s, s.core.waiters[0].host);
      } else {
        ArmedIsLater(c, clock, s);
      }
    }
  }

  /**
   When a waiter can start, in the fields: without a time every waiting host has all its slots; and with
   one, until then every waiter is held, by its host's slots, its host's last start or the table of starts,
   and then some waiter no longer is.
   */
  ghost predicate Earliest(c: Config, core: Core, now: real, wakeAt: Option<real>) {
    && (wakeAt.None? ==> forall w :: w in core.waiters ==> FullHost(c, core, w.host))
    && (wakeAt.Some? ==>
          && now < wakeAt.value
          && (forall t, w :: now <= t < wakeAt.value && w in core.waiters ==> Held(c, core, t, w.host))
          && (exists w :: w in core.waiters && !Held(c, core, wakeAt.value, w.host)))
  }

  /** The timer is armed for the earliest time at which anybody can start, whenever only time is missing. */
  lemma ArmedForEarliest(c: Config, clock: Clock, steps: seq<Step>)
    requires c.Valid() && Monotone(clock) && Legal(c, clock, steps)
    ensures var s := Exec(c, clock, steps);
            s.core.waiters != [] && s.core.active < c.globalLimit ==>
              s.ticks > 0 && Earliest(c, s.core, clock(s.ticks - 1), s.wakeAt)
  {
    RunsKeep(c, clock, steps);
    var s := Exec(c, clock, steps);
    if s.core.waiters != [] && s.core.active < c.globalLimit {
      MinReadyIsEarliest(c, s.core, clock(s.ticks - 1));
    }
  }

  /** A pruned table in the order of the starts. */
  ghost predicate Table(c: Config, history: seq<Start>, now: real) {
    Pruned(c, history, now) && forall i, j :: 0 <= i < j < |history| ==> history[i].at <= history[j].at
  }

  /** If nobody may start now, the minimum ready time is the earliest time at which anybody may. */
  lemma MinReadyIsEarliest(c: Config, core: Core, now: real)
    requires c.Valid() && Table(c, core.history, now)
    requires forall i :: 0 <= i < |core.waiters| ==> !Eligible(c, core, now, core.waiters[i].host)
    ensures Earliest(c, core, now, MinReady(c, core, core.waiters))
  {
    var r := MinReady(c, core, core.waiters);
    MinReadyIsMinimum(c, core, core.waiters);
    if r.Some? {
      var w :| w in core.waiters && !Saturated(c, core, w.host) && ReadyAt(c, core, w.host) == r.value;
      FreeWhenReady(c, core, now, w.host);
      forall t, v | now <= t < r.value && v in core.waiters ensures Held(c, core, t, v.host) {
        HeldUntilReady(c, core, now, v.host, t);
      }
    }
  }

  /** Nothing changes for a blocked host before its ready time. */
  lemma HeldUntilReady(c: Config, core: Core, now: real, host: Host, t: real)
    requires c.Valid() && Table(c, core.history, now) && !Eligible(c, core, now, host) && now <= t
    requires Saturated(c, core, host) || t < ReadyAt(c, core, host)
    ensures Held(c, core, t, host)
  {
    StartedAtFinds(core.history, host);
    if !Saturated(c, core, host) && StartedAt(core.history, host).None? {
      assert NoRoomFor(c, core, t, host);
    }
  }

  /** At its ready time, which is still to come, a blocked host with a free slot is held no more. */
  lemma FreeWhenReady(c: Config, core: Core, now: real, host: Host)
    requires c.Valid() && Table(c, core.history, now) && !Saturated(c, core, host) && !Eligible(c, core, now, host)
    ensures now < ReadyAt(c, core, host) && !Held(c, core, ReadyAt(c, core, host), host)
  {
    StartedAtFinds(core.history, host);
    assert StartedAt(core.history, host).None? ==> !Young(c, core.history[0], ReadyAt(c, core, host));
  }

  /** What a scan answers: the oldest waiter that nothing holds, or else when the first one can start. */
  ghost predicate Chosen(c: Config, core: Core, now: real, selected: Option<nat>, wakeAt: Option<real>) {
    match selected
    case Some(i) =>
      && i < |core.waiters| && !Held(c, core, now, core.waiters[i].host)
      && (forall j :: 0 <= j < i ==> Held(c, core, now, core.waiters[j].host))
    case None =>
      && (forall w :: w in core.waiters ==> Held(c, core, now, w.host))
      && Earliest(c, core, now, wakeAt)
  }

  lemma ScanChooses(c: Config, core: Core, now: real)
    requires c.Valid() && Table(c, core.history, now)
    ensures var selected := FirstEligible(c, core, now, 0);
            forall wakeAt :: (selected.None? ==> wakeAt == MinReady(c, core, core.waiters)) ==>
                               Chosen(c, core, now, selected, wakeAt)
  {
    forall w: Waiter ensures Eligible(c, core, now, w.host) <==> !Held(c, core, now, w.host) {
      EligibleIsFree(c, core, now, w.host);
    }
    if FirstEligible(c, core, now, 0).None? {
      MinReadyIsEarliest(c, core, now);
    }
  }

  lemma SaturatedHasHolder(c: Config, s: State, host: Host)
    requires c.Valid() && CapacityInv(c, s) && Saturated(c, s.core, host)
    ensures Holders(s.phase) != {}
  {
    assert ActiveOf(s.core, host) == |HoldersOf(s.phase, s.hosts, host)|;
    var id :| id in HoldersOf(s.phase, s.hosts, host);
    assert id in Holders(s.phase);
  }

  /** The armed time is the expiry of a live entry, so it lies strictly in the future. */
  lemma ArmedIsLater(c: Config, clock: Clock, s: State)
    requires c.Valid() && WakeInv(c, clock, s) && s.wakeAt.Some?
    ensures s.ticks > 0 && clock(s.ticks - 1) < s.wakeAt.value
  {
    MinReadyIsMinimum(c, s.core, s.core.waiters);
    var w :| w in s.core.waiters && !Saturated(c, s.core, w.host) && ReadyAt(c, s.core, w.host) == s.wakeAt.value;
    assert !Eligible(c, s.core, clock(s.ticks - 1), w.host);
    StartedAtFinds(s.core.history, w.host);
  }

  /**
   Timer progress.  If the timer fires with the clock at or past the armed time, and no waiter was
   cancelled since it was armed, the pump admits somebody -- also when the blocker was the size of
   the history table.
   */
  lemma TimerProgress(c: Config, clock: Clock, steps: seq<Step>)
    requires c.Valid() && Monotone(clock) && Legal(c, clock, steps + [Fire])
    requires AllPending(Exec(c, clock, steps))
    requires Exec(c, clock, steps).wakeAt.Some?
    requires clock(Exec(c, clock, steps).ticks) >= Exec(c, clock, steps).wakeAt.value
    ensures |Exec(c, clock, steps + [Fire]).log| > |Exec(c, clock, steps).log|
  {
    var s := Exec(c, clock, steps);
    assert (steps + [Fire])[..|steps|] == steps;
    RunsKeep(c, clock, steps);
    FiringAdmits(c, clock, s);
  }

  lemma FiringAdmits(c: Config, clock: Clock, s: State)
    requires c.Valid() && Monotone(clock) && Inv(c, clock, s) && AllPending(s)
    requires s.wakeAt.Some? && clock(s.ticks) >= s.wakeAt.value
    ensures |Next(c, clock, s, Fire).log| > |s.log|
  {
    FireIsLoop(c, clock, s);
    FiringFindsEligible(c, clock, s);
    WakeAtIsInert(c, clock, s, None);
    LoopAdmits(c, clock, s.(wakeAt := None));
  }

  lemma FireIsLoop(c: Config, clock: Clock, s: State)
    requires AllPending(s)
    ensures Next(c, clock, s, Fire) == PumpLoop(c, clock, s.(wakeAt := None))
  {
    DiscardNothing(s);
    assert Prepare(s.(wakeAt := None)) == s.(wakeAt := None);
  }

  lemma LoopAdmits(c: Config, clock: Clock, q: State)
    requires c.Valid() && Monotone(clock) && Sound(c, clock, q) && AllPending(q)
    requires q.wakeAt == None && q.core.active < c.globalLimit && q.core.waiters != []
    requires FirstEligible(c, Tick(c, clock, q).core, clock(q.ticks), 0).Some?
    ensures |PumpLoop(c, clock, q).log| > |q.log|
  {
    var i := FirstEligible(c, Tick(c, clock, q).core, clock(q.ticks), 0).value;
    PumpLoopAdmits(c, clock, q, i);
    PumpLoopKeeps(c, clock, Admit(c, Tick(c, clock, q), i, clock(q.ticks)));
  }

  lemma DiscardNothing(s: State)
    requires AllPending(s)
    ensures Discard(s.core.waiters, s.phase) == s.core.waiters
  {
    DiscardNothingFrom(s.core.waiters, s.phase);
  }

  lemma DiscardNothingFrom(waiters: seq<Waiter>, phase: map<nat, Phase>)
    requires forall i :: 0 <= i < |waiters| ==> waiters[i].id in phase && phase[waiters[i].id] == Pending
    ensures Discard(waiters, phase) == waiters
  {
    if waiters != [] {
      DiscardNothingFrom(waiters[1..], phase);
    }
  }

  lemma FiringFindsEligible(c: Config, clock: Clock, s: State)
    requires c.Valid() && Monotone(clock) && Inv(c, clock, s) && s.wakeAt.Some?
    requires clock(s.ticks) >= s.wakeAt.value
    ensures FirstEligible(c, Tick(c, clock, s.(wakeAt := None)).core, clock(s.ticks), 0).Some?
    ensures s.core.active < c.globalLimit && s.core.waiters != []
  {
    var core' := Tick(c, clock, s.(wakeAt := None)).core;
    MinReadyIsMinimum(c, s.core, s.core.waiters);
    var w :| w in s.core.waiters && !Saturated(c, s.core, w.host) && ReadyAt(c, s.core, w.host) == s.wakeAt.value;
    assert !Eligible(c, s.core, clock(s.ticks - 1), w.host);
    ReadyIsEligible(c, clock, s, w.host);
    var i :| 0 <= i < |core'.waiters| && core'.waiters[i] == w;
    assert Eligible(c, core', clock(s.ticks), core'.waiters[i].host);
  }

  /** Once the clock passes a host's ready time, pruning leaves nothing in its way. */
  lemma ReadyIsEligible(c: Config, clock: Clock, s: State, host: Host)
    requires c.Valid() && HistoryInv(c, clock, s)
    requires s.ticks > 0 && !Saturated(c, s.core, host) && !Eligible(c, s.core, clock(s.ticks - 1), host)
    requires ReadyAt(c, s.core, host) <= clock(s.ticks)
    ensures Eligible(c, s.core.(history := Prune(c, s.core.history, clock(s.ticks))), clock(s.ticks), host)
  {
    StartedAtFinds(s.core.history, host);
    assert c.interval > 0.0;
    var k := PruneIsSuffix(c, s.core.history, clock(s.ticks));
    assert k > 0;
    StartedAtSuffix(s.core.history, k, host);
  }

  /** Start spacing with bounded memory: forgetting old starts never lets a host start too soon. */
  lemma StartSpacing(c: Config, clock: Clock, steps: seq<Step>)
    requires c.Valid() && Monotone(clock) && Legal(c, clock, steps)
    ensures var s := Exec(c, clock, steps);
            && |s.core.history| <= c.historyLimit
            && forall i, j :: 0 <= i < j < |s.log| && s.log[i].host == s.log[j].host ==>
                 s.log[i].at + c.interval <= s.log[j].at
  {
    RunsKeep(c, clock, steps);
  }

  /** Capacity accounting: both limits, exact counters, and releases that never underflow. */
  lemma CapacityAccounting(c: Config, clock: Clock, steps: seq<Step>)
    requires c.Valid() && Monotone(clock) && Legal(c, clock, steps)
    ensures var s := Exec(c, clock, steps);
            && s.core.active == |Holders(s.phase)| == SumOf(s.core.byHost) <= c.globalLimit
            && (forall h :: h in s.core.byHost ==> 0 < s.core.byHost[h] <= c.hostLimit)
            && (forall h :: ActiveOf(s.core, h) == |HoldersOf(s.phase, s.hosts, h)|)
            && (forall id :: id in Holders(s.phase) ==> id in s.hosts && CanRelease(s.core, s.hosts[id]))
  {
    RunsKeep(c, clock, steps);
    var s := Exec(c, clock, steps);
    forall id | id in Holders(s.phase) ensures id in s.hosts && CanRelease(s.core, s.hosts[id]) {
      HolderCanRelease(c, clock, s, id);
    }
  }

  lemma WaiterIsUndecided(s: State, i: nat)
    requires QueueInv(s) && i < |s.core.waiters|
    ensures InPhase(s, s.core.waiters[i].id, Pending) || InPhase(s, s.core.waiters[i].id, Cancelled)
  {
  }

  /** No slot leaks: once every acquisition is over, whichever way it ended, all counters are zero. */
  lemma QuiescentIsEmpty(c: Config, clock: Clock, steps: seq<Step>)
    requires c.Valid() && Monotone(clock) && Legal(c, clock, steps)
    requires forall id :: id in Exec(c, clock, steps).phase ==> Exec(c, clock, steps).phase[id] == Over
    ensures var s := Exec(c, clock, steps);
            s.core.active == 0 && s.core.byHost == map[] && s.core.waiters == [] && s.wakeAt == None
  {
    RunsKeep(c, clock, steps);
    var s := Exec(c, clock, steps);
    assert Holders(s.phase) == {};
    forall h ensures h !in s.core.byHost {
      assert HoldersOf(s.phase, s.hosts, h) == {};
      assert ActiveOf(s.core, h) == |HoldersOf(s.phase, s.hosts, h)|;
    }
    if s.core.waiters != [] {
      WaiterIsUndecided(s, 0);
      assert false;
    }
  }

  /**
   Fairness.  Grants to one host follow arrival order, nobody still waiting arrived before a grant
   to the same host, and every grant went to the oldest waiter that could start at that instant.
   */
  lemma GrantsFollowArrival(c: Config, clock: Clock, steps: seq<Step>)
    requires c.Valid() && Monotone(clock) && Legal(c, clock, steps)
    ensures var s := Exec(c, clock, steps);
            && (forall i, j :: 0 <= i < j < |s.log| && s.log[i].host == s.log[j].host ==> s.log[i].id < s.log[j].id)
            && (forall i, w :: 0 <= i < |s.log| && w in s.core.waiters && s.log[i].host == w.host ==>
                  s.log[i].id < w.id)
            && (forall i :: 0 <= i < |s.log| ==> Fair(c, s.log[i]))
  {
    RunsKeep(c, clock, steps);
  }
}
