/**
 `NetworkScheduler` in the imperative form of `src/fetech/scheduling.py`.  Every method is proved
 equal to one step of `SchedulerModel`, so the run theorems of `SchedulerProofs` are about it.
 */
module Scheduler {
  import opened Common
  import opened SchedulerModel
  import opened SchedulerProofs

  class NetworkScheduler {
    const cfg: Config
    const clock: Clock

    var activeGlobal: int
    var activeByHost: map<Host, int>
    var lastStartedAt: seq<Start>
    var waiters: seq<Waiter>
    var wakeHandle: Option<real>

    // The futures of the acquisitions, and how often the clock was read.
    var futures: map<nat, Phase>
    var hostOf: map<nat, Host>
    var nextId: nat
    var clockReads: nat
    ghost var grants: seq<Grant>

    /** The abstract state. */
    ghost function Model(): State
      reads this
    {
      State(Core(activeGlobal, activeByHost, lastStartedAt, waiters), wakeHandle, futures, hostOf,
            nextId, clockReads, grants)
    }

    constructor (cfg: Config, clock: Clock)
      requires cfg.Valid()
      ensures this.cfg == cfg && this.clock == clock && Model() == INITIAL
    {
      this.cfg, this.clock := cfg, clock;
      activeGlobal, activeByHost, lastStartedAt, waiters, wakeHandle := 0, map[], [], [], None;
      futures, hostOf, nextId, clockReads, grants := map[], map[], 0, 0, [];
    }

    /** `__init__` rejects limits that are not positive and a negative interval. */
    static method Create(cfg: Config, clock: Clock) returns (r: Option<NetworkScheduler>)
      ensures r.Some? <==> cfg.Valid()
      ensures r.Some? ==> fresh(r.value) && r.value.cfg == cfg && r.value.clock == clock && r.value.Model() == INITIAL
    {
      if cfg.globalLimit <= 0 || cfg.hostLimit <= 0 || cfg.interval < 0.0 || cfg.historyLimit <= 0 {
        return None;
      }
      var scheduler := new NetworkScheduler(cfg, clock);
      r := Some(scheduler);
    }

    method PruneHostHistory(now: real)
      modifies this`lastStartedAt
      ensures lastStartedAt == Prune(cfg, old(lastStartedAt), now)
    {
      if cfg.interval == 0.0 {
        lastStartedAt := [];
        return;
      }
      while lastStartedAt != []
        invariant DropExpired(cfg, lastStartedAt, now) == DropExpired(cfg, old(lastStartedAt), now)
        decreases |lastStartedAt|
      {
        if lastStartedAt[0].at + cfg.interval > now {
          return;
        }
        lastStartedAt := lastStartedAt[1..];
      }
    }

    /** Scan the queue once: the oldest eligible waiter, or else when to try again. */
    method NextEligibleWaiter(now: real) returns (selected: Option<nat>, wakeAt: Option<real>)
      requires cfg.Valid()
      ensures selected == FirstEligible(cfg, Model().core, now, 0)
      ensures selected.None? ==> wakeAt == MinReady(cfg, Model().core, waiters)
      ensures Table(cfg, lastStartedAt, now) ==> Chosen(cfg, Model().core, now, selected, wakeAt)
    {
      ghost var core := Model().core;
      wakeAt := None;
      for index := 0 to |waiters|
        invariant FirstEligible(cfg, core, now, 0) == FirstEligible(cfg, core, now, index)
        invariant wakeAt == MinReady(cfg, core, waiters[..index])
      {
        assert waiters[..index + 1][..index] == waiters[..index];
        var host := waiters[index].host;
        var active := if host in activeByHost then activeByHost[host] else 0;
        if active >= cfg.hostLimit {
          continue;
        }
        var started := StartedAt(lastStartedAt, host);
        if started.Some? && started.value + cfg.interval > now {
          var hostReadyAt := started.value + cfg.interval;
          wakeAt := Some(if wakeAt.None? || hostReadyAt <= wakeAt.value then hostReadyAt else wakeAt.value);
          continue;
        }
        if cfg.interval > 0.0 && started.None? && |lastStartedAt| >= cfg.historyLimit {
          var historyReadyAt := lastStartedAt[0].at + cfg.interval;
          wakeAt := Some(if wakeAt.None? || historyReadyAt <= wakeAt.value then historyReadyAt else wakeAt.value);
          continue;
        }
        if Table(cfg, lastStartedAt, now) {
          ScanChooses(cfg, core, now);
        }
        return Some(index), wakeAt;
      }
      assert waiters[..|waiters|] == waiters;
      selected := None;
      if Table(cfg, lastStartedAt, now) {
        ScanChooses(cfg, core, now);
      }
    }

    /** Admit waiters while slots are free, then arm the timer if only time is missing. */
    method RunPump()
      requires cfg.Valid()
      modifies this
      ensures Model() == Pump(cfg, clock, old(Model()))
    {
      wakeHandle := None;
      waiters := Discard(waiters, futures);
      assert Model() == Prepare(old(Model()));
      while activeGlobal < cfg.globalLimit && waiters != []
        invariant PumpLoop(cfg, clock, Model()) == Pump(cfg, clock, old(Model()))
        decreases |waiters|
      {
        ghost var before := Model();
        var now := clock(clockReads);
        clockReads := clockReads + 1;
        PruneHostHistory(now);
        assert Model() == Tick(cfg, clock, before);
        var selected, wakeAt := NextEligibleWaiter(now);
        if selected.None? {
          wakeHandle := wakeAt;
          return;
        }
        AdmitWaiter(selected.value, now);
      }
    }

    /** Move one waiter from the queue into a slot and resolve its future. */
    method AdmitWaiter(selected: nat, now: real)
      requires selected < |waiters|
      modifies this
      ensures Model() == Admit(cfg, old(Model()), selected, now)
    {
      ghost var core := Model().core;
      var waiter := waiters[selected];
      waiters := waiters[..selected] + waiters[selected + 1..];
      activeGlobal := activeGlobal + 1;
      activeByHost := activeByHost[waiter.host :=
        (if waiter.host in activeByHost then activeByHost[waiter.host] else 0) + 1];
      if cfg.interval > 0.0 {
        lastStartedAt := Touch(lastStartedAt, waiter.host, now);
      }
      futures := futures[waiter.id := Granted];
      grants := grants + [Grant(waiter.id, waiter.host, now, core)];
    }

    /** The synchronous part of `_acquire`. */
    method Acquire(host: Host) returns (id: nat)
      requires cfg.Valid()
      modifies this
      ensures id == old(nextId)
      ensures Model() == Next(cfg, clock, old(Model()), Step.Acquire(host))
    {
      id := nextId;
      nextId := nextId + 1;
      futures := futures[id := Pending];
      hostOf := hostOf[id := host];
      waiters := waiters + [Waiter(id, host)];
      assert Model() == Enqueue(old(Model()), host);
      RunPump();
    }

    /** The task awaiting `id` is cancelled before it was granted anything. */
    method CancelPending(id: nat)
      requires Enabled(Model(), Step.CancelPending(id))
      modifies this`futures
      ensures Model() == Next(cfg, clock, old(Model()), Step.CancelPending(id))
    {
      futures := futures[id := Cancelled];
    }

    /** `_release`: give back one slot of the host, or raise before changing anything. */
    method Release(host: Host) returns (ok: bool)
      requires cfg.Valid()
      modifies this
      ensures ok <==> CanRelease(old(Model().core), host)
      ensures Model() == if ok then Pump(cfg, clock, old(Model()).(core := ReleaseCore(old(Model().core), host)))
                         else old(Model())
    {
      var active := if host in activeByHost then activeByHost[host] else 0;
      if activeGlobal <= 0 || active <= 0 {
        return false;
      }
      activeGlobal := activeGlobal - 1;
      if active == 1 {
        activeByHost := activeByHost - {host};
      } else {
        activeByHost := activeByHost[host := active - 1];
      }
      assert Model() == old(Model()).(core := ReleaseCore(old(Model().core), host));
      RunPump();
      ok := true;
    }

    /** The exception handler of `_acquire`: undo the grant, or leave the queue. */
    method HandleCancellation(id: nat) returns (ok: bool)
      requires cfg.Valid() && id in hostOf
      requires Enabled(Model(), Unwind(id)) || Enabled(Model(), CancelGranted(id))
      modifies this
      ensures ok <==> old(futures[id] == Cancelled || CanRelease(Model().core, hostOf[id]))
      ensures ok ==> Model() == Next(cfg, clock, old(Model()),
                                     if old(futures[id]) == Cancelled then Unwind(id) else CancelGranted(id))
    {
      if futures[id] != Cancelled {
        futures := futures[id := Over];
        ok := Release(hostOf[id]);
      } else {
        futures := futures[id := Over];
        waiters := RemoveWaiter(waiters, id);
        RunPump();
        ok := true;
      }
    }

    /** A granted task enters the body of `slot`. */
    method Resume(id: nat)
      requires Enabled(Model(), Step.Resume(id))
      modifies this`futures
      ensures Model() == Next(cfg, clock, old(Model()), Step.Resume(id))
    {
      futures := futures[id := Running];
    }

    /** The `finally` block of `slot`. */
    method Exit(id: nat) returns (ok: bool)
      requires cfg.Valid() && id in hostOf && Enabled(Model(), Step.Exit(id))
      modifies this
      ensures ok <==> CanRelease(old(Model().core), old(hostOf[id]))
      ensures ok ==> Model() == Next(cfg, clock, old(Model()), Step.Exit(id))
    {
      futures := futures[id := Over];
      ok := Release(hostOf[id]);
    }

    /** The timer callback. */
    method Wake()
      requires cfg.Valid()
      modifies this
      ensures Model() == Next(cfg, clock, old(Model()), Fire)
    {
      wakeHandle := None;
      RunPump();
    }
  }
}
