/**
 `EventLedger` and its `stream` generator in the imperative form of `src/fetech/ledger.py`, cut at
 the suspension points.  Every method takes one step of `LedgerModel`, so the delivery theorems of
 `LedgerProofs` and `LedgerBoundary` are about these classes.
 */
module Ledger {
  import opened Common
  import opened LedgerModel

  /** The tables and the subscriber queues of one run. */
  class EventLedger {
    var rows: seq<Event>
    var run: Option<RunState>
    var subscribers: map<nat, seq<Item>>

    // Where the appends, the finish and the streams stand.
    ghost var cursors: map<nat, Cursor>
    ghost var inflight: map<nat, Event>
    ghost var published: seq<Event>
    ghost var finish: Finish
    ghost var late: bool
    ghost var overlapped: bool

    /** The abstract state. */
    ghost function Model(): State
      reads this
    {
      State(Shared(rows, run, subscribers), cursors, inflight, published, finish, late, overlapped)
    }

    constructor ()
      ensures Model() == INITIAL
    {
      rows, run, subscribers := [], None, map[];
      cursors, inflight, published, finish, late, overlapped := map[], map[], [], NotStarted, false, false;
    }

    /** The run identity is a primary key: a run that is there already is not created again. */
    method CreateRun() returns (created: bool)
      modifies this`run
      ensures created <==> old(run).None?
      ensures Model() == if created then Next(old(Model()), Step.CreateRun) else old(Model())
    {
      created := run.None?;
      if created {
        run := Some(Queued);
      }
    }

    /** First half of `append`: the unique event identity decides whether the row is stored. */
    method CommitEvent(ghost writer: nat, event: Event) returns (stored: bool)
      requires writer !in inflight
      modifies this
      ensures stored <==> event.id !in Ids(old(rows))
      ensures Model() == if stored then Next(old(Model()), Step.CommitEvent(writer, event)) else old(Model())
    {
      stored := event.id !in Ids(rows);
      if stored {
        rows := rows + [event];
        late, overlapped := late || finish != NotStarted, overlapped || inflight != map[];
        inflight := inflight[writer := event];
      }
    }

    /** Second half of `append`. */
    method PublishEvent(ghost writer: nat, event: Event)
      requires writer in inflight && inflight[writer] == event
      modifies this
      ensures Model() == Next(old(Model()), Step.PublishEvent(writer))
    {
      Publish(Item(event));
      published, inflight := published + [event], inflight - {writer};
    }

    /** The loop that puts one item on every registered queue. */
    method Publish(item: Item)
      modifies this`subscribers
      ensures subscribers == Deliver(old(subscribers), item)
    {
      var todo := subscribers.Keys;
      ghost var before := subscribers;
      while todo != {}
        invariant todo <= before.Keys == subscribers.Keys
        invariant forall k :: k in before ==>
                    subscribers[k] == if k in todo then before[k] else before[k] + [item]
        decreases todo
      {
        var k :| k in todo;
        subscribers := subscribers[k := subscribers[k] + [item]];
        todo := todo - {k};
      }
    }

    /** First half of `update_run`; an unknown run raises and changes nothing. */
    method CommitState(to: RunState) returns (known: bool)
      modifies this
      ensures known <==> old(run).Some?
      ensures !known ==> Model() == old(Model())
      ensures known ==> run == Some(to) && rows == old(rows) && subscribers == old(subscribers)
      ensures known && to == Finished ==> Model() == Next(old(Model()), CommitFinish)
      ensures known && to != Finished && old(finish) == NotStarted ==> Model() == Next(old(Model()), Advance(to))
    {
      known := run.Some?;
      if known {
        run := Some(to);
        if finish == NotStarted && to == Finished {
          finish, late := Committed, late || inflight != map[];
        }
      }
    }

    /** Second half of an `update_run` to the finished state. */
    method PublishFinish()
      requires finish != NotStarted
      modifies this
      ensures Model() == Next(old(Model()), Step.PublishFinish)
    {
      Publish(Sentinel);
      finish := Published;
    }
  }

  /** One `stream` call: its queue is registered under `key` until it stops. */
  class Stream {
    const ledger: EventLedger
    const key: nat
    var phase: Phase
    var backlog: seq<Event>
    var seen: set<nat>

    /** The queue is registered exactly while the stream is live. */
    ghost predicate Valid()
      reads this, ledger
    {
      && key in ledger.cursors
      && ledger.cursors[key].phase == phase && ledger.cursors[key].backlog == backlog && ledger.cursors[key].seen == seen
      && (key in ledger.subscribers <==> Live(phase))
    }

    constructor (ledger: EventLedger, key: nat)
      requires key !in ledger.cursors
      modifies ledger
      ensures this.ledger == ledger && this.key == key && Valid()
      ensures ledger.Model() == Next(old(ledger.Model()), Subscribe(key))
    {
      this.ledger, this.key := ledger, key;
      phase, backlog, seen := Opened, [], {};
      new;
      ledger.subscribers := ledger.subscribers[key := []];
      ledger.cursors := ledger.cursors[key := OpenCursor(|ledger.published|)];
    }

    /** The `finally` block. */
    method Unregister()
      modifies ledger`subscribers
      ensures ledger.subscribers == old(ledger.subscribers) - {key}
    {
      ledger.subscribers := ledger.subscribers - {key};
    }

    /** The consumer goes away. */
    method Close()
      requires Valid() && Live(phase)
      modifies this, ledger
      ensures Valid() && ledger.Model() == Next(old(ledger.Model()), Drop(key))
    {
      phase := Dropped;
      ledger.cursors := ledger.cursors[key := ledger.cursors[key].(phase := Dropped)];
      Unregister();
    }

    method ReadRows()
      requires Valid() && phase == Opened
      modifies this, ledger`cursors
      ensures Valid() && ledger.Model() == Next(old(ledger.Model()), Step.ReadRows(key))
    {
      phase, backlog := Replaying, ledger.rows;
      ledger.cursors := ledger.cursors[key := StartReplay(ledger.cursors[key], backlog)];
      assert ledger.subscribers == ledger.subscribers[key := ledger.subscribers[key]];
    }

    /** Yield the next committed row. */
    method Replay() returns (event: Event)
      requires Valid() && phase == Replaying && backlog != []
      modifies this, ledger`cursors
      ensures Valid() && ledger.Model() == Next(old(ledger.Model()), Step.Replay(key))
      ensures ledger.cursors[key].yielded == old(ledger.cursors[key].yielded) + [event]
    {
      event := backlog[0];
      backlog, seen := backlog[1..], seen + {event.id};
      ledger.cursors := ledger.cursors[key := ReplayOne(ledger.cursors[key])];
      assert ledger.subscribers == ledger.subscribers[key := ledger.subscribers[key]];
    }

    /** Choose between waiting and flushing, or fail on an unknown run. */
    method ReadState()
      requires Valid() && phase == Replaying && backlog == []
      modifies this, ledger
      ensures Valid() && ledger.Model() == Next(old(ledger.Model()), Step.ReadState(key))
    {
      ledger.cursors := ledger.cursors[key := SeeState(ledger.cursors[key], ledger.run)];
      assert ledger.subscribers == ledger.subscribers[key := ledger.subscribers[key]];
      if ledger.run.None? {
        phase := Failed;
        Unregister();
      } else if ledger.run.value == Finished {
        phase := Flushing;
      } else {
        phase := Following;
      }
    }

    /** One turn of either drain loop: the event to yield, if any. */
    method Turn() returns (event: Option<Event>)
      requires Valid() && phase in {Following, Flushing}
      requires phase == Following ==> ledger.subscribers[key] != []
      modifies this, ledger
      ensures Valid()
      ensures ledger.Model() == Next(old(ledger.Model()), if old(ledger.subscribers[key]) == [] then Return(key) else Take(key))
      ensures ledger.cursors[key].yielded == old(ledger.cursors[key].yielded) + (if event.Some? then [event.value] else [])
    {
      if ledger.subscribers[key] == [] {
        event := None;
        phase := Ended;
        ledger.cursors := ledger.cursors[key := ledger.cursors[key].(phase := Ended)];
        Unregister();
      } else {
        event := TakeNext();
      }
    }

    /** Take the next item off the queue: a seen event is skipped, and the sentinel ends the stream. */
    method TakeNext() returns (event: Option<Event>)
      requires Valid() && phase in {Following, Flushing} && ledger.subscribers[key] != []
      modifies this, ledger
      ensures Valid() && ledger.Model() == Next(old(ledger.Model()), Take(key))
      ensures ledger.cursors[key].yielded == old(ledger.cursors[key].yielded) + (if event.Some? then [event.value] else [])
    {
      event := None;
      var item := ledger.subscribers[key][0];
      ledger.subscribers := ledger.subscribers[key := ledger.subscribers[key][1..]];
      ledger.cursors := ledger.cursors[key := TakeItem(ledger.cursors[key], item)];
      if item.Sentinel? {
        phase := Ended;
        Unregister();
      } else if item.event.id !in seen {
        seen := seen + {item.event.id};
        event := Some(item.event);
      }
    }
  }
}
