/**
 The shared network scheduler of `src/fetech/scheduling.py` as a state machine.

 One `Step` is one stretch of code that the event loop runs without a suspension point: the
 synchronous part of an acquisition, a cancellation of a waiting task, the exception handler of
 a cancelled acquisition, a release, or the timer callback.  The clock is an arbitrary monotone
 sequence of readings, one per call of `loop.time()`.
 */
module SchedulerModel {
  import opened Common

  type Host = string
  type Clock = nat -> real

  ghost predicate Monotone(clock: Clock) {
    forall i: nat, j: nat :: i <= j ==> clock(i) <= clock(j)
  }

  datatype Config = Config(globalLimit: int, hostLimit: int, interval: real, historyLimit: int) {
    predicate Valid() {
      globalLimit > 0 && hostLimit > 0 && interval >= 0.0 && historyLimit > 0
    }
  }

  datatype Waiter = Waiter(id: nat, host: Host)

  /** One entry of the ordered start-history table. */
  datatype Start = Start(host: Host, at: real)

  /** The part of the scheduler that decides who may start. */
  datatype Core = Core(active: int, byHost: map<Host, int>, history: seq<Start>, waiters: seq<Waiter>)

  /** Life of one acquisition: its future, and then the body of `slot`. */
  datatype Phase = Pending | Cancelled | Granted | Running | Over

  /** One admission, with the decision state it was taken in. */
  datatype Grant = Grant(id: nat, host: Host, at: real, before: Core)

  datatype State = State(
    core: Core, wakeAt: Option<real>, phase: map<nat, Phase>, hosts: map<nat, Host>,
    next: nat, ticks: nat, log: seq<Grant>)

  // ---- The start-history table -------------------------------------------------------------

  function StartedAt(history: seq<Start>, host: Host): Option<real> {
    if history == [] then None
    else if history[0].host == host then Some(history[0].at)
    else StartedAt(history[1..], host)
  }

  function Without(history: seq<Start>, host: Host): seq<Start> {
    if history == [] then []
    else if history[0].host == host then history[1..]
    else [history[0]] + Without(history[1..], host)
  }

  /** Assign the host's start time and move its entry to the end. */
  function Touch(history: seq<Start>, host: Host, at: real): seq<Start> {
    Without(history, host) + [Start(host, at)]
  }

  /** Drop expired entries from the front; a zero interval keeps no history at all. */
  function Prune(c: Config, history: seq<Start>, now: real): seq<Start> {
    if c.interval == 0.0 then []
    else DropExpired(c, history, now)
  }

  function DropExpired(c: Config, history: seq<Start>, now: real): seq<Start> {
    if history == [] || history[0].at + c.interval > now then history
    else DropExpired(c, history[1..], now)
  }

  // ---- Who may start, and when -------------------------------------------------------------

  function ActiveOf(core: Core, host: Host): int {
    if host in core.byHost then core.byHost[host] else 0
  }

  predicate Saturated(c: Config, core: Core, host: Host) {
    ActiveOf(core, host) >= c.hostLimit
  }

  predicate Cooling(c: Config, core: Core, now: real, host: Host) {
    var started := StartedAt(core.history, host);
    started.Some? && started.value + c.interval > now
  }

  predicate HistoryFull(c: Config, core: Core, host: Host) {
    c.interval > 0.0 && StartedAt(core.history, host).None? && |core.history| >= c.historyLimit
  }

  predicate Eligible(c: Config, core: Core, now: real, host: Host) {
    !Saturated(c, core, host) && !Cooling(c, core, now, host) && !HistoryFull(c, core, host)
  }

  /** The earliest time at which the start history stops blocking the host. */
  function ReadyAt(c: Config, core: Core, host: Host): real {
    var started := StartedAt(core.history, host);
    if started.Some? then started.value + c.interval
    else if core.history != [] then core.history[0].at + c.interval
    else 0.0
  }

  /** Index of the oldest eligible waiter at or after `from`. */
  function FirstEligible(c: Config, core: Core, now: real, from: nat): (r: Option<nat>)
    requires from <= |core.waiters|
    ensures r.Some? ==> from <= r.value < |core.waiters| && Eligible(c, core, now, core.waiters[r.value].host)
    ensures forall j :: from <= j < (if r.Some? then r.value else |core.waiters|) ==>
                          !Eligible(c, core, now, core.waiters[j].host)
    decreases |core.waiters| - from
  {
    if from == |core.waiters| then None
    else if Eligible(c, core, now, core.waiters[from].host) then Some(from)
    else FirstEligible(c, core, now, from + 1)
  }

  /** The minimum ready time over the waiters whose host has a free slot. */
  function MinReady(c: Config, core: Core, waiters: seq<Waiter>): Option<real> {
    if waiters == [] then None
    else SoonerOf(c, core, MinReady(c, core, waiters[..|waiters| - 1]), waiters[|waiters| - 1].host)
  }

  function SoonerOf(c: Config, core: Core, best: Option<real>, host: Host): Option<real> {
    if Saturated(c, core, host) then best
    else if best.None? || ReadyAt(c, core, host) <= best.value then Some(ReadyAt(c, core, host))
    else best
  }

  // ---- The pump ----------------------------------------------------------------------------

  function Discard(waiters: seq<Waiter>, phase: map<nat, Phase>): seq<Waiter> {
    if waiters == [] then []
    else
      var rest := Discard(waiters[1..], phase);
      if waiters[0].id in phase && phase[waiters[0].id] == Cancelled then rest else [waiters[0]] + rest
  }

  function Admit(c: Config, s: State, i: nat, now: real): State
    requires i < |s.core.waiters|
  {
    var w := s.core.waiters[i];
    var core := Core(
      s.core.active + 1,
      s.core.byHost[w.host := ActiveOf(s.core, w.host) + 1],
      if c.interval > 0.0 then Touch(s.core.history, w.host, now) else s.core.history,
      s.core.waiters[..i] + s.core.waiters[i + 1..]);
    s.(core := core, phase := s.phase[w.id := Granted], log := s.log + [Grant(w.id, w.host, now, s.core)])
  }

  /** Read the clock once and prune the history with it. */
  function Tick(c: Config, clock: Clock, s: State): State {
    s.(core := s.core.(history := Prune(c, s.core.history, clock(s.ticks))), ticks := s.ticks + 1)
  }

  function PumpLoop(c: Config, clock: Clock, s: State): State
    decreases |s.core.waiters|
  {
    if s.core.active >= c.globalLimit || s.core.waiters == [] then s
    else
      var p := Tick(c, clock, s);
      var selected := FirstEligible(c, p.core, clock(s.ticks), 0);
      if selected.None? then p.(wakeAt := MinReady(c, p.core, p.core.waiters))
      else PumpLoop(c, clock, Admit(c, p, selected.value, clock(s.ticks)))
  }

  /** Cancel the timer and forget cancelled waiters: what the pump does before admitting. */
  function Prepare(s: State): State {
    s.(wakeAt := None, core := s.core.(waiters := Discard(s.core.waiters, s.phase)))
  }

  function Pump(c: Config, clock: Clock, s: State): State {
    PumpLoop(c, clock, Prepare(s))
  }

  // ---- Steps and runs ----------------------------------------------------------------------

  predicate CanRelease(core: Core, host: Host) {
    core.active > 0 && ActiveOf(core, host) > 0
  }

  function ReleaseCore(core: Core, host: Host): Core
    requires CanRelease(core, host)
  {
    core.(active := core.active - 1,
          byHost := if core.byHost[host] == 1 then core.byHost - {host}
                    else core.byHost[host := core.byHost[host] - 1])
  }

  function RemoveWaiter(waiters: seq<Waiter>, id: nat): seq<Waiter> {
    if waiters == [] then []
    else if waiters[0].id == id then waiters[1..]
    else [waiters[0]] + RemoveWaiter(waiters[1..], id)
  }

  datatype Step =
    | Acquire(host: Host)
    | CancelPending(id: nat)   // the waiting task is cancelled (or times out): its future is cancelled
    | Unwind(id: nat)          // the handler of that cancelled acquisition runs
    | Resume(id: nat)          // a granted task continues into the body of `slot`
    | CancelGranted(id: nat)   // a task is cancelled after its grant and before it resumed
    | Exit(id: nat)            // the body of `slot` ends, normally or not
    | Fire                     // the armed timer runs

  predicate InPhase(s: State, id: nat, phase: Phase) {
    id in s.phase && s.phase[id] == phase
  }

  predicate Enabled(s: State, step: Step) {
    match step
    case Acquire(_) => true
    case CancelPending(id) => InPhase(s, id, Pending)
    case Unwind(id) => InPhase(s, id, Cancelled)
    case Resume(id) => InPhase(s, id, Granted)
    case CancelGranted(id) => InPhase(s, id, Granted)
    case Exit(id) => InPhase(s, id, Running)
    case Fire => s.wakeAt.Some?
  }

  /** A fresh acquisition joins the queue with a pending future. */
  function Enqueue(s: State, host: Host): State {
    s.(core := s.core.(waiters := s.core.waiters + [Waiter(s.next, host)]),
       phase := s.phase[s.next := Pending],
       hosts := s.hosts[s.next := host],
       next := s.next + 1)
  }

  /** Give a slot back.  The accounting error is raised before anything changes. */
  function ReleaseSlot(c: Config, clock: Clock, s: State, id: nat): State {
    if id !in s.hosts || !CanRelease(s.core, s.hosts[id]) then s
    else Pump(c, clock, s.(core := ReleaseCore(s.core, s.hosts[id]), phase := s.phase[id := Over]))
  }

  function Next(c: Config, clock: Clock, s: State, step: Step): State {
    match step
    case Acquire(host) =>
      Pump(c, clock, Enqueue(s, host))
    case CancelPending(id) => s.(phase := s.phase[id := Cancelled])
    case Unwind(id) =>
      Pump(c, clock, s.(core := s.core.(waiters := RemoveWaiter(s.core.waiters, id)),
                        phase := s.phase[id := Over]))
    case Resume(id) => s.(phase := s.phase[id := Running])
    case CancelGranted(id) => ReleaseSlot(c, clock, s, id)
    case Exit(id) => ReleaseSlot(c, clock, s, id)
    case Fire => Pump(c, clock, s.(wakeAt := None))
  }

  const INITIAL := State(Core(0, map[], [], []), None, map[], map[], 0, 0, [])

  function Exec(c: Config, clock: Clock, steps: seq<Step>): State {
    if steps == [] then INITIAL
    else Next(c, clock, Exec(c, clock, steps[..|steps| - 1]), steps[|steps| - 1])
  }

  /** Every step of the run was possible when it was taken. */
  predicate Legal(c: Config, clock: Clock, steps: seq<Step>) {
    steps == [] ||
    (Legal(c, clock, steps[..|steps| - 1]) &&
     Enabled(Exec(c, clock, steps[..|steps| - 1]), steps[|steps| - 1]))
  }

  // ---- Observations ------------------------------------------------------------------------

  /** Acquisitions that own a slot. */
  function Holders(phase: map<nat, Phase>): set<nat> {
    set id | id in phase && (phase[id] == Granted || phase[id] == Running)
  }

  function HoldersOf(phase: map<nat, Phase>, hosts: map<nat, Host>, host: Host): set<nat> {
    set id | id in Holders(phase) && id in hosts && hosts[id] == host
  }

  /** Sum of the values of a map. */
  ghost function SumOf(m: map<Host, int>): int
    decreases |m|
  {
    if m == map[] then 0
    else
      var h :| h in m;
      m[h] + SumOf(m - {h})
  }
}
