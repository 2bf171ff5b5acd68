/**
 One run of the event ledger of `src/fetech/ledger.py` as interleaved atomic steps.

 A writer commits a row and publishes it later; a finisher commits the FINISHED state and publishes a
 sentinel later, and another one may do so again; a subscriber registers its queue, reads the committed
 rows, reads the run state and then drains its queue.  Any number of writers and subscribers interleave
 freely, because every `await` is a step boundary.
 */
module LedgerModel {
  import opened Common

  datatype Event = Event(id: nat, payload: string)

  /** What a subscriber's queue holds; the sentinel is the `None` the finisher puts there. */
  datatype Item = Item(event: Event) | Sentinel

  datatype RunState = Queued | Planning | Running | Finished

  /** The tables and the subscriber map for one run. */
  datatype Shared = Shared(rows: seq<Event>, run: Option<RunState>, queues: map<nat, seq<Item>>)

  datatype Phase =
    | Opened      // registered, committed rows not read yet
    | Replaying   // yielding the committed rows
    | Following   // the run was not finished: wait on the queue
    | Flushing    // the run was finished: empty the queue without waiting
    | Ended       // the stream returned
    | Failed      // the run is unknown
    | Dropped     // the consumer went away

  predicate Live(phase: Phase) {
    phase in {Opened, Replaying, Following, Flushing}
  }

  /** The local variables of one `stream` call. */
  datatype Cursor = Cursor(phase: Phase, backlog: seq<Event>, seen: set<nat>, yielded: seq<Event>,
                           joined: nat, taken: nat, snapshot: nat)

  datatype Finish = NotStarted | Committed | Published

  /**
   `published` is the order of publications.  `late` records that an append was still unpublished,
   or not even committed, when the finish was committed; `overlapped` that two appends overlapped.
   */
  datatype State = State(shared: Shared, cursors: map<nat, Cursor>, inflight: map<nat, Event>,
                         published: seq<Event>, finish: Finish, late: bool, overlapped: bool)

  // ---- Effects on the shared state ---------------------------------------------------------

  function Ids(events: seq<Event>): set<nat> {
    set e | e in events :: e.id
  }

  /** Put one item on every registered queue; there is no suspension point in between. */
  function Deliver(queues: map<nat, seq<Item>>, item: Item): map<nat, seq<Item>> {
    map k | k in queues :: queues[k] + [item]
  }

  // ---- Effects on a cursor -----------------------------------------------------------------

  function OpenCursor(joined: nat): Cursor {
    Cursor(Opened, [], {}, [], joined, 0, 0)
  }

  function StartReplay(c: Cursor, rows: seq<Event>): Cursor {
    c.(phase := Replaying, backlog := rows, snapshot := |rows|)
  }

  function ReplayOne(c: Cursor): Cursor
    requires c.backlog != []
  {
    c.(backlog := c.backlog[1..], seen := c.seen + {c.backlog[0].id}, yielded := c.yielded + [c.backlog[0]])
  }

  function SeeState(c: Cursor, run: Option<RunState>): Cursor {
    c.(phase := if run.None? then Failed else if run.value == Finished then Flushing else Following)
  }

  function TakeItem(c: Cursor, item: Item): Cursor {
    match item
    case Sentinel => c.(phase := Ended)
    case Item(event) =>
      if event.id in c.seen then c.(taken := c.taken + 1)
      else c.(taken := c.taken + 1, seen := c.seen + {event.id}, yielded := c.yielded + [event])
  }

  // ---- Steps -------------------------------------------------------------------------------

  datatype Step =
    | CreateRun
    | Advance(to: RunState)              // an update to a state other than FINISHED
    | CommitEvent(writer: nat, event: Event)
    | PublishEvent(writer: nat)
    | CommitFinish
    | PublishFinish
    | Subscribe(k: nat)
    | ReadRows(k: nat)
    | Replay(k: nat)
    | ReadState(k: nat)
    | Take(k: nat)
    | Return(k: nat)                     // the flushing loop found its queue empty
    | Drop(k: nat)

  predicate At(s: State, k: nat, phase: Phase) {
    k in s.cursors && k in s.shared.queues && s.cursors[k].phase == phase
  }

  predicate Enabled(s: State, step: Step) {
    match step
    case CreateRun => s.shared.run.None?
    case Advance(to) => s.shared.run.Some? && to != Finished && s.finish == NotStarted
    case CommitEvent(w, e) => w !in s.inflight && e.id !in Ids(s.shared.rows)
    case PublishEvent(w) => w in s.inflight
    case CommitFinish => s.shared.run.Some?
    case PublishFinish => s.finish != NotStarted
    case Subscribe(k) => k !in s.cursors
    case ReadRows(k) => At(s, k, Opened)
    case Replay(k) => At(s, k, Replaying) && s.cursors[k].backlog != []
    case ReadState(k) => At(s, k, Replaying) && s.cursors[k].backlog == []
    case Take(k) => (At(s, k, Following) || At(s, k, Flushing)) && s.shared.queues[k] != []
    case Return(k) => At(s, k, Flushing) && s.shared.queues[k] == []
    case Drop(k) => k in s.cursors && k in s.shared.queues && Live(s.cursors[k].phase)
  }

  /** Store a cursor; a cursor that is no longer live loses its queue. */
  function Settle(s: State, k: nat, c: Cursor, queue: seq<Item>): State {
    s.(cursors := s.cursors[k := c],
       shared := s.shared.(queues := if Live(c.phase) then s.shared.queues[k := queue] else s.shared.queues - {k}))
  }

  function Next(s: State, step: Step): State
    requires Enabled(s, step)
  {
    match step
    case CreateRun => s.(shared := s.shared.(run := Some(Queued)))
    case Advance(to) => s.(shared := s.shared.(run := Some(to)))
    case CommitEvent(w, e) =>
      s.(shared := s.shared.(rows := s.shared.rows + [e]),
         inflight := s.inflight[w := e],
         late := s.late || s.finish != NotStarted,
         overlapped := s.overlapped || s.inflight != map[])
    case PublishEvent(w) =>
      s.(shared := s.shared.(queues := Deliver(s.shared.queues, Item(s.inflight[w]))),
         published := s.published + [s.inflight[w]],
         inflight := s.inflight - {w})
    case CommitFinish =>
      s.(shared := s.shared.(run := Some(Finished)), finish := if s.finish == NotStarted then Committed else s.finish,
         late := s.late || (s.finish == NotStarted && s.inflight != map[]))
    case PublishFinish =>
      s.(shared := s.shared.(queues := Deliver(s.shared.queues, Sentinel)), finish := Published)
    case Subscribe(k) => Settle(s, k, OpenCursor(|s.published|), [])
    case ReadRows(k) => Settle(s, k, StartReplay(s.cursors[k], s.shared.rows), s.shared.queues[k])
    case Replay(k) => Settle(s, k, ReplayOne(s.cursors[k]), s.shared.queues[k])
    case ReadState(k) => Settle(s, k, SeeState(s.cursors[k], s.shared.run), s.shared.queues[k])
    case Take(k) => Settle(s, k, TakeItem(s.cursors[k], s.shared.queues[k][0]), s.shared.queues[k][1..])
    case Return(k) => Settle(s, k, s.cursors[k].(phase := Ended), [])
    case Drop(k) => Settle(s, k, s.cursors[k].(phase := Dropped), [])
  }

  const INITIAL := State(Shared([], None, map[]), map[], map[], [], NotStarted, false, false)

  /** Every step of the run was possible when it was taken. */
  predicate Legal(steps: seq<Step>)
    decreases |steps|, 0
  {
    steps == [] || (Legal(steps[..|steps| - 1]) && Enabled(Exec(steps[..|steps| - 1]), steps[|steps| - 1]))
  }

  /** Where a run leads from the empty ledger. */
  function Exec(steps: seq<Step>): State
    requires Legal(steps)
    decreases |steps|, 1
  {
    if steps == [] then INITIAL else Next(Exec(steps[..|steps| - 1]), steps[|steps| - 1])
  }

  /** Some interleaving leads from the empty ledger to this state. */
  ghost predicate Reachable(s: State) {
    exists steps :: Legal(steps) && Exec(steps) == s
  }

  // ---- Schedules ---------------------------------------------------------------------------

  /** The steps of writers and the finisher; the others belong to subscribers. */
  predicate WriterStep(step: Step) {
    step.CreateRun? || step.Advance? || step.CommitEvent? || step.PublishEvent? || step.CommitFinish? || step.PublishFinish?
  }

  /** What writers and the finisher do in a run, in order. */
  function Schedule(steps: seq<Step>): seq<Step> {
    if steps == [] then []
    else Schedule(steps[..|steps| - 1]) + (if WriterStep(steps[|steps| - 1]) then [steps[|steps| - 1]] else [])
  }
}
