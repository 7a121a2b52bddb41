/** The supervisor's table of peer watchers: at most one entry per task, guarded by one lock. */
module WatcherTable {
  /**
   * What the lock guards. Watchers are numbered as they are created; `cancelled` holds those whose
   * context was cancelled, `waiting` is the wait-group count.
   */
  datatype Table = Table(
    entries: map<string, nat>,
    cancelled: set<nat>,
    stopped: bool,
    next: nat,
    waiting: nat)

  function Armed(t: Table, task: string): Table {
    if t.stopped then t.(cancelled := t.cancelled + {t.next}, next := t.next + 1)
    else
      t.(
      entries := t.entries[task := t.next],
      cancelled := if task in t.entries then t.cancelled + {t.entries[task]} else t.cancelled,
      next := t.next + 1,
      waiting := t.waiting + 1)
  }

  function Stopped(t: Table, task: string): Table {
    if task in t.entries
    then t.(entries := t.entries - {task}, cancelled := t.cancelled + {t.entries[task]})
    else t
  }

  function AllCancelled(t: Table): Table {
    t.(entries := map[], cancelled := t.cancelled + t.entries.Values, stopped := true)
  }

  /** A watcher that returns takes its own entry along, never its successor's. */
  function Left(t: Table, task: string, w: nat): Table {
    if task in t.entries && t.entries[task] == w then t.(entries := t.entries - {task}) else t
  }

  /** What arming or stopping one task leaves of another's entry. */
  lemma OthersKeep(t: Table, task: string, other: string)
    requires task != other && other in t.entries && t.entries[other] < t.next && t.entries[other] !in t.cancelled
    requires task in t.entries ==> t.entries[task] != t.entries[other]
    ensures var a := Armed(t, task);
            other in a.entries && a.entries[other] == t.entries[other] && a.entries[other] !in a.cancelled
    ensures var s := Stopped(t, task);
            other in s.entries && s.entries[other] == t.entries[other] && s.entries[other] !in s.cancelled
  {
  }

  class Watchers {
    var entries: map<string, nat>
    var cancelled: set<nat>
    var stopped: bool
    var next: nat
    var waiting: nat

    function State(): Table
      reads this
    {
      Table(entries, cancelled, stopped, next, waiting)
    }

    constructor ()
      ensures State() == Table(map[], {}, false, 0, 0)
    {
      entries, cancelled, stopped, next, waiting := map[], {}, false, 0, 0;
    }

    /** Registers a fresh watcher for the task; `started` says whether its goroutine runs. */
    method Arm(task: string) returns (w: nat, started: bool)
      modifies this
      ensures State() == Armed(old(State()), task)
      ensures w == old(next) && started == !old(stopped)
    {
      w := next;
      next := next + 1;
      if stopped {
        cancelled := cancelled + {w};
        return w, false;
      }
      if task in entries {
        cancelled := cancelled + {entries[task]};
      }
      entries := entries[task := w];
      waiting := waiting + 1;
      return w, true;
    }

    method Stop(task: string)
      modifies this
      ensures State() == Stopped(old(State()), task)
    {
      if task in entries {
        cancelled := cancelled + {entries[task]};
        entries := entries - {task};
      }
    }

    method CancelAll()
      modifies this
      ensures State() == AllCancelled(old(State()))
    {
      stopped := true;
      while entries != map[]
        invariant stopped && next == old(next) && waiting == old(waiting)
        invariant forall k | k in entries :: k in old(entries) && entries[k] == old(entries)[k]
        invariant cancelled + entries.Values == old(cancelled) + old(entries).Values
        decreases |entries|
      {
        var id :| id in entries.Keys;
        assert entries.Values == (entries - {id}).Values + {entries[id]} by {
          forall v | v in entries.Values
            ensures v in (entries - {id}).Values + {entries[id]}
          {
            var k :| k in entries && entries[k] == v;
            assert k == id || k in entries - {id};
          }
        }
        cancelled := cancelled + {entries[id]};
        entries := entries - {id};
      }
    }

    /** The deferred clean-up of watcher w. */
    method Leave(task: string, w: nat)
      modifies this`entries
      ensures State() == Left(old(State()), task, w)
    {
      if task in entries && entries[task] == w {
        entries := entries - {task};
      }
    }
  }
}
