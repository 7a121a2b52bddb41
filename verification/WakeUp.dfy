/**
 * Watchers, executions, cancellations and recovery interleaved: the critical sections of the watcher
 * table and every read and write of a record are single steps, taken in any order the code allows.
 * No wake-up is lost, except when a restarted supervisor re-arms from a list it read too early.
 */
module WakeUp {
  import opened WatcherTable

  /** Where a task's record says it stands. */
  datatype Place = OnPeer(peer: string) | Elsewhere

  /** A live execution of a task, between two steps; a2asrv runs at most one per task. */
  datatype Phase =
    | Waking(peer: string)   // resumed, and found the record parked on this peer
    | Releasing              // the peer has ended; its watcher is stopped
    | Acting                 // running intents and rounds
    | Saving(peer: string)   // saved as parked, about to arm
    | Ending                 // armed

  datatype Stage = Polling | Found | Delivering | Leaving | Cleaned

  datatype Watcher = Watcher(task: string, peer: string, stage: Stage)

  datatype State = State(
    records: map<string, Place>,
    live: map<string, Phase>,
    table: Table,
    running: map<nat, Watcher>,   // goroutines
    todo: map<string, string>,    // tasks recovery has read but not re-armed, with the peer it read
    cancelling: multiset<string>) // cancels that have stopped a watcher and not yet deleted the record

  datatype Action =
    | NewTask(task: string)
    | Message(task: string)
    | Repark(task: string)
    | Release(task: string)
    | SaveElsewhere(task: string)
    | Park(task: string, peer: string)
    | Arm(task: string)
    | End(task: string)
    | CancelStop(task: string)
    | CancelDelete(task: string)
    | Look(w: nat)
    | Again(w: nat)
    | Deliver(w: nat)
    | Retry(w: nat)
    | Return(w: nat)
    | Clean(w: nat)
    | Exit(w: nat)
    | StopAll
    | Restart
    | Rearm(task: string)

  /** The order in which an execution stops, saves and arms. */
  predicate Allows(phase: Phase, a: Action) {
    match a
    case Repark(_) => phase.Waking?
    case Release(_) => phase.Waking?
    case SaveElsewhere(_) => phase == Releasing || phase == Acting
    case Park(_, _) => phase == Acting
    case Arm(_) => phase.Saving?
    case End(_) => phase == Ending || phase == Acting
    case _ => false
  }

  function PhaseAfter(phase: Phase, a: Action): Phase
    requires Allows(phase, a)
  {
    match a
    case Repark(_) => Saving(phase.peer)
    case Release(_) => Releasing
    case SaveElsewhere(_) => Acting
    case Park(_, p) => Saving(p)
    case Arm(_) => Ending
    case End(_) => phase
  }

  predicate AtRest(s: State, task: string) {
    task !in s.live || s.live[task] == Ending
  }

  predicate Phased(s: State, task: string, p: Phase) {
    task in s.live && s.live[task] == p
  }

  predicate Staged(s: State, w: nat, st: Stage) {
    w in s.running && s.running[w].stage == st
  }

  /** A task id nothing in the state mentions: new tasks are named freshly. */
  predicate Unheard(s: State, task: string) {
    && task !in s.records && task !in s.live && task !in s.todo && task !in s.cancelling
    && forall w | w in s.running :: s.running[w].task != task
  }

  predicate Enabled(s: State, a: Action) {
    match a
    case NewTask(t) => Unheard(s, t)
    case Message(t) => t in s.records && t !in s.live
    case Repark(t) => t in s.live && Allows(s.live[t], a)
    case Release(t) => t in s.live && Allows(s.live[t], a)
    case SaveElsewhere(t) => t in s.live && Allows(s.live[t], a)
    case Park(t, _) => t in s.live && Allows(s.live[t], a)
    case Arm(t) => t in s.live && Allows(s.live[t], a)
    case End(t) => t in s.live && Allows(s.live[t], a)
    case CancelStop(t) => t in s.records || t in s.live
    case CancelDelete(t) => t in s.cancelling
    case Look(w) => Staged(s, w, Polling)
    case Again(w) => Staged(s, w, Found)
    case Deliver(w) => Staged(s, w, Found) && s.running[w].task in s.records && s.running[w].task !in s.live
    case Retry(w) => Staged(s, w, Delivering)
    case Return(w) => Staged(s, w, Delivering) || (Staged(s, w, Polling) && w in s.table.cancelled)
    case Clean(w) => Staged(s, w, Leaving)
    case Exit(w) => Staged(s, w, Cleaned) && s.table.waiting > 0
    case StopAll => true
    case Restart => s.live == map[]
    case Rearm(t) => t in s.todo
  }

  /** The execution a message starts. */
  function Begin(s: State, task: string): State
    requires task in s.records
  {
    s.(live := s.live[task := match s.records[task] case OnPeer(p) => Waking(p) case Elsewhere => Acting])
  }

  function Staging(s: State, w: nat, st: Stage): State
    requires w in s.running
  {
    s.(running := s.running[w := s.running[w].(stage := st)])
  }

  /** armWatcher: a fresh watcher, whose goroutine runs unless the table is stopped. */
  function Arming(s: State, task: string, peer: string): State {
    s.(
    table := Armed(s.table, task),
    running := if s.table.stopped then s.running else s.running[s.table.next := Watcher(task, peer, Polling)])
  }

  function Next(s: State, a: Action): State
    requires Enabled(s, a)
  {
    match a
    case NewTask(t) => s.(records := s.records[t := Elsewhere], live := s.live[t := Acting])
    case Message(t) => Begin(s, t)
    case Repark(t) =>
      s.(records := s.records[t := OnPeer(s.live[t].peer)], live := s.live[t := PhaseAfter(s.live[t], a)])
    case Release(t) => s.(table := Stopped(s.table, t), live := s.live[t := PhaseAfter(s.live[t], a)])
    case SaveElsewhere(t) => s.(records := s.records[t := Elsewhere], live := s.live[t := PhaseAfter(s.live[t], a)])
    case Park(t, p) => s.(records := s.records[t := OnPeer(p)], live := s.live[t := PhaseAfter(s.live[t], a)])
    case Arm(t) => Arming(s, t, s.live[t].peer).(live := s.live[t := PhaseAfter(s.live[t], a)])
    case End(t) => s.(live := s.live - {t})
    case CancelStop(t) => s.(table := Stopped(s.table, t), cancelling := s.cancelling + multiset{t})
    case CancelDelete(t) => s.(records := s.records - {t}, cancelling := s.cancelling - multiset{t})
    case Look(w) => Staging(s, w, if ParkedOn(s, s.running[w].task, s.running[w].peer) then Found else Leaving)
    case Again(w) => Staging(s, w, Polling)
    case Deliver(w) => Staging(Begin(s, s.running[w].task), w, Delivering)
    case Retry(w) => Staging(s, w, Polling)
    case Return(w) => Staging(s, w, Leaving)
    case Clean(w) => Staging(s, w, Cleaned).(table := Left(s.table, s.running[w].task, w))
    case Exit(w) => s.(running := s.running - {w}, table := s.table.(waiting := s.table.waiting - 1))
    case StopAll => s.(table := AllCancelled(s.table))
    case Restart => s.(table := Table(map[], {}, false, 0, 0), running := map[], todo := ParkedTasks(s),
                         cancelling := multiset{})
    case Rearm(t) => Arming(s, t, s.todo[t]).(todo := s.todo - {t})
  }

  predicate ParkedOn(s: State, task: string, peer: string) {
    task in s.records && s.records[task] == OnPeer(peer)
  }

  function ParkedTasks(s: State): map<string, string> {
    map t | t in s.records && s.records[t].OnPeer? :: s.records[t].peer
  }

  // -------------------------------------------------------------- invariants

  /** Entries name live, uncancelled watchers of their own task. */
  ghost predicate EntriesLive(s: State) {
    forall t | t in s.table.entries ::
      var w := s.table.entries[t];
      w in s.running && w !in s.table.cancelled && s.running[w].task == t && s.running[w].stage != Cleaned
  }

  /** A watcher that is neither cancelled nor cleaned up is the one its task's entry names. */
  ghost predicate UncancelledListed(s: State) {
    forall w | w in s.running && w !in s.table.cancelled && s.running[w].stage != Cleaned ::
      s.running[w].task in s.table.entries && s.table.entries[s.running[w].task] == w
  }

  /** The table and the goroutines agree. */
  ghost predicate TableOk(s: State) {
    && s.table.waiting == |s.running|
    && (forall w | w in s.running :: w < s.table.next)
    && (forall w | w in s.table.cancelled :: w < s.table.next)
    && EntriesLive(s)
    && UncancelledListed(s)
    && (s.table.stopped ==> s.table.entries == map[])
  }

  /** What an execution knows of its record, unless a cancel has deleted it meanwhile. */
  ghost predicate PhasesOk(s: State) {
    forall t | t in s.live && t in s.records ::
      && (s.live[t].Waking? || s.live[t].Saving? ==> s.records[t] == OnPeer(s.live[t].peer))
      && (s.live[t] == Acting ==> s.records[t] == Elsewhere)
  }

  /** A live watcher for exactly this wait: in the table, uncancelled, still polling. */
  ghost predicate Watched(s: State, task: string, peer: string) {
    && task in s.table.entries
    && var w := s.table.entries[task];
    && w in s.running && w !in s.table.cancelled
    && s.running[w].task == task && s.running[w].peer == peer
    && (s.running[w].stage == Polling || s.running[w].stage == Found)
  }

  /** A task parked on a peer, with no execution, recovery or cancel of it under way. */
  predicate Waits(s: State, task: string) {
    && task in s.records && s.records[task].OnPeer?
    && AtRest(s, task) && task !in s.todo && task !in s.cancelling
  }

  /** The wake-up guarantee. */
  ghost predicate Covered(s: State) {
    !s.table.stopped ==> forall t | Waits(s, t) :: Watched(s, t, s.records[t].peer)
  }

  ghost predicate Inv(s: State) {
    TableOk(s) && PhasesOk(s) && Covered(s)
  }

  function Initial(): State {
    State(map[], map[], Table(map[], {}, false, 0, 0), map[], map[], multiset{})
  }

  /** Re-arming now would replace the watcher of a later wait: the list recovery read is out of date. */
  predicate Stale(s: State, task: string) {
    && task in s.todo && !s.table.stopped && AtRest(s, task) && task !in s.cancelling
    && task in s.records && s.records[task].OnPeer? && s.records[task].peer != s.todo[task]
  }

  // -------------------------------------------------------------- every step

  lemma ArmingCounts(s: State, task: string, peer: string)
    requires TableOk(s)
    ensures var t := Arming(s, task, peer); t.table.waiting == |t.running|
  {
    var t := Arming(s, task, peer);
    if !s.table.stopped {
      assert t.running.Keys == s.running.Keys + {s.table.next};
      assert |t.running.Keys| == |s.running.Keys| + 1;
    }
  }

  lemma ArmingLists(s: State, task: string, peer: string)
    requires TableOk(s)
    ensures UncancelledListed(Arming(s, task, peer)) && EntriesLive(Arming(s, task, peer))
  {
    var t := Arming(s, task, peer);
    forall w | w in t.running && w !in t.table.cancelled && t.running[w].stage != Cleaned
      ensures t.running[w].task in t.table.entries && t.table.entries[t.running[w].task] == w
    {
      if w in s.running {
        assert w !in s.table.cancelled && t.running[w] == s.running[w];
      }
    }
    forall x | x in t.table.entries
      ensures var w := t.table.entries[x];
              w in t.running && w !in t.table.cancelled && t.running[w].task == x && t.running[w].stage != Cleaned
    {
      if x != task {
        assert t.table.entries[x] == s.table.entries[x];
      }
    }
  }

  lemma ArmingKeepsTable(s: State, task: string, peer: string)
    requires TableOk(s)
    ensures TableOk(Arming(s, task, peer))
  {
    ArmingCounts(s, task, peer);
    ArmingLists(s, task, peer);
  }

  lemma ArmingWatches(s: State, task: string, peer: string)
    requires TableOk(s) && !s.table.stopped
    ensures Watched(Arming(s, task, peer), task, peer)
  {
  }

  lemma StagingKeepsTable(s: State, w: nat, st: Stage)
    requires TableOk(s) && w in s.running && s.running[w].stage != Cleaned && st != Cleaned
    ensures TableOk(Staging(s, w, st))
  {
    assert Staging(s, w, st).running.Keys == s.running.Keys;
    assert |s.running| == |s.running.Keys|;
    assert |Staging(s, w, st).running| == |Staging(s, w, st).running.Keys|;
  }

  lemma CleaningKeepsTable(s: State, w: nat)
    requires TableOk(s) && Enabled(s, Clean(w))
    ensures TableOk(Next(s, Clean(w)))
  {
    var t := Next(s, Clean(w));
    assert t.running.Keys == s.running.Keys;
    assert |s.running| == |s.running.Keys| && |t.running| == |t.running.Keys|;
  }

  lemma ExitKeepsTable(s: State, w: nat)
    requires TableOk(s) && Enabled(s, Exit(w))
    ensures TableOk(Next(s, Exit(w)))
  {
    var t := Next(s, Exit(w));
    assert t.running.Keys == s.running.Keys - {w};
    assert |s.running| == |s.running.Keys| && |t.running| == |t.running.Keys|;
  }

  lemma StoppingKeepsTable(s: State, task: string)
    requires TableOk(s)
    ensures TableOk(s.(table := Stopped(s.table, task)))
  {
  }

  lemma StopAllKeepsTable(s: State)
    requires TableOk(s)
    ensures TableOk(s.(table := AllCancelled(s.table)))
  {
  }

  /** Only the table and the goroutines matter to their agreement. */
  lemma TableOkFrame(s: State, t: State)
    requires TableOk(s) && t.table == s.table && t.running == s.running
    ensures TableOk(t)
  {
  }

  lemma TableStep(s: State, a: Action)
    requires TableOk(s) && Enabled(s, a)
    ensures TableOk(Next(s, a))
  {
    match a
    case Arm(task) =>
      ArmingKeepsTable(s, task, s.live[task].peer);
      TableOkFrame(Arming(s, task, s.live[task].peer), Next(s, a));
    case Rearm(task) =>
      ArmingKeepsTable(s, task, s.todo[task]);
      TableOkFrame(Arming(s, task, s.todo[task]), Next(s, a));
    case Release(task) =>
      StoppingKeepsTable(s, task);
      TableOkFrame(s.(table := Stopped(s.table, task)), Next(s, a));
    case CancelStop(task) =>
      StoppingKeepsTable(s, task);
      TableOkFrame(s.(table := Stopped(s.table, task)), Next(s, a));
    case StopAll => StopAllKeepsTable(s);
    case Restart =>
    case Clean(w) => CleaningKeepsTable(s, w);
    case Exit(w) => ExitKeepsTable(s, w);
    case Look(w) =>
      StagingKeepsTable(s, w, Next(s, a).running[w].stage);
    case Again(w) => StagingKeepsTable(s, w, Polling);
    case Retry(w) => StagingKeepsTable(s, w, Polling);
    case Return(w) => StagingKeepsTable(s, w, Leaving);
    case Deliver(w) =>
      TableOkFrame(s, Begin(s, s.running[w].task));
      StagingKeepsTable(Begin(s, s.running[w].task), w, Delivering);
    case _ => TableOkFrame(s, Next(s, a));
  }

  lemma PhaseStep(s: State, a: Action)
    requires PhasesOk(s) && Enabled(s, a)
    ensures PhasesOk(Next(s, a))
  {
  }

  /** A goroutine that has not finished runs on, for the same wait. */
  lemma RunningStays(s: State, a: Action, w: nat)
    requires TableOk(s) && Enabled(s, a) && !a.Restart? && w in s.running && a != Exit(w)
    ensures w in Next(s, a).running
    ensures Next(s, a).running[w].task == s.running[w].task && Next(s, a).running[w].peer == s.running[w].peer
    ensures ((a.Look? || a.Again? || a.Deliver? || a.Retry? || a.Return? || a.Clean?) && a.w == w)
            || Next(s, a).running[w] == s.running[w]
  {
  }

  /** Looking again at a task that is still parked does not end the watch. */
  lemma PollingStays(s: State, a: Action, w: nat)
    requires TableOk(s) && Enabled(s, a) && !a.Restart? && w in s.running && w !in s.table.cancelled
    requires (s.running[w].stage == Polling || s.running[w].stage == Found)
    requires ParkedOn(s, s.running[w].task, s.running[w].peer) && a != Deliver(w)
    ensures w in Next(s, a).running
    ensures Next(s, a).running[w].stage == Polling || Next(s, a).running[w].stage == Found
  {
    RunningStays(s, a, w);
  }

  lemma OtherEntryKept(s: State, x: string, task: string)
    requires TableOk(s) && x != task && task in s.table.entries
    ensures var a := Armed(s.table, x);
            task in a.entries && a.entries[task] == s.table.entries[task] && a.entries[task] !in a.cancelled
    ensures var t := Stopped(s.table, x);
            task in t.entries && t.entries[task] == s.table.entries[task] && t.entries[task] !in t.cancelled
  {
    if x in s.table.entries {
      assert s.running[s.table.entries[x]].task == x && s.running[s.table.entries[task]].task == task;
    }
    OthersKeep(s.table, x, task);
  }

  /** The entry of another task, or of this one while it is left alone, stays and is not cancelled. */
  lemma EntryStays(s: State, a: Action, task: string)
    requires TableOk(s) && Enabled(s, a) && task in s.table.entries
    requires !a.StopAll? && !a.Restart? && a != Clean(s.table.entries[task])
    requires (a.Release? || a.CancelStop? || a.Arm? || a.Rearm?) ==> a.task != task
    ensures var t := Next(s, a).table;
            task in t.entries && t.entries[task] == s.table.entries[task] && t.entries[task] !in t.cancelled
  {
    match a
    case Arm(x) => OtherEntryKept(s, x, task);
    case Rearm(x) => OtherEntryKept(s, x, task);
    case Release(x) => OtherEntryKept(s, x, task);
    case CancelStop(x) => OtherEntryKept(s, x, task);
    case Clean(w) =>
    case _ =>
  }

  /** A watcher that covers a wait keeps covering it until its task is resumed, re-armed or cancelled. */
  lemma WatchedStays(s: State, a: Action, task: string, peer: string)
    requires TableOk(s) && Enabled(s, a) && Watched(s, task, peer) && ParkedOn(s, task, peer)
    requires !a.StopAll? && !a.Restart?
    requires (a.Release? || a.CancelStop? || a.Arm? || a.Rearm?) ==> a.task != task
    requires a.Deliver? ==> s.running[a.w].task != task
    ensures Watched(Next(s, a), task, peer)
  {
    EntryStays(s, a, task);
    RunningStays(s, a, s.table.entries[task]);
    PollingStays(s, a, s.table.entries[task]);
  }

  /** A task that waits after a step other than its arming waited before it. */
  lemma WaitedBefore(s: State, a: Action, task: string)
    requires PhasesOk(s) && Enabled(s, a) && a != Arm(task) && a != Rearm(task)
    requires !Next(s, a).table.stopped && !a.Restart? && Waits(Next(s, a), task)
    ensures !s.table.stopped && Waits(s, task) && s.records[task] == Next(s, a).records[task]
  {
  }

  /** The steps after which a task cannot be waiting. */
  lemma EndsWait(s: State, a: Action, task: string)
    requires Enabled(s, a) && !Next(s, a).table.stopped && Waits(Next(s, a), task)
    ensures !a.StopAll? && !a.Restart?
    ensures (a.Release? || a.CancelStop?) ==> a.task != task
    ensures a.Deliver? ==> s.running[a.w].task != task
  {
  }

  lemma CoverStep(s: State, a: Action)
    requires Inv(s) && Enabled(s, a)
    requires !(a.Rearm? && Stale(s, a.task))
    ensures Covered(Next(s, a))
  {
    var t := Next(s, a);
    forall task | !t.table.stopped && Waits(t, task)
      ensures Watched(t, task, t.records[task].peer)
    {
      var peer := t.records[task].peer;
      if a == Arm(task) {
        ArmingWatches(s, task, peer);
      } else if a == Rearm(task) {
        ArmingWatches(s, task, s.todo[task]);
      } else {
        EndsWait(s, a, task);
        WaitedBefore(s, a, task);
        WatchedStays(s, a, task, peer);
      }
    }
  }

  lemma StepKeepsInv(s: State, a: Action)
    requires Inv(s) && Enabled(s, a) && !(a.Rearm? && Stale(s, a.task))
    ensures Inv(Next(s, a))
  {
    TableStep(s, a);
    PhaseStep(s, a);
    CoverStep(s, a);
  }

  /** A recovery step keeps the guarantee exactly when what it read is not out of date. */
  lemma RearmKeepsInvIff(s: State, task: string)
    requires Inv(s) && Enabled(s, Rearm(task))
    ensures Inv(Next(s, Rearm(task))) <==> !Stale(s, task)
  {
    if Stale(s, task) {
      var t := Next(s, Rearm(task));
      ArmingWatches(s, task, s.todo[task]);
      assert t.records[task] == s.records[task] && Waits(t, task);
      assert !Watched(t, task, t.records[task].peer);
    } else {
      StepKeepsInv(s, Rearm(task));
    }
  }

  // --------------------------------------------------------------- whole runs

  ghost predicate Legal(s: State, actions: seq<Action>)
    decreases |actions|
  {
    actions == [] || (Enabled(s, actions[0]) && Legal(Next(s, actions[0]), actions[1..]))
  }

  ghost function After(s: State, actions: seq<Action>): State
    requires Legal(s, actions)
    decreases |actions|
  {
    if actions == [] then s else After(Next(s, actions[0]), actions[1..])
  }

  /** No step of the run re-arms from an out-of-date list. */
  ghost predicate NeverStale(s: State, actions: seq<Action>)
    requires Legal(s, actions)
    decreases |actions|
  {
    || actions == []
    || (!(actions[0].Rearm? && Stale(s, actions[0].task)) && NeverStale(Next(s, actions[0]), actions[1..]))
  }

  lemma {:induction false} RunKeepsInv(s: State, actions: seq<Action>)
    requires Inv(s) && Legal(s, actions) && NeverStale(s, actions)
    ensures Inv(After(s, actions))
    decreases |actions|
  {
    if actions != [] {
      StepKeepsInv(s, actions[0]);
      RunKeepsInv(Next(s, actions[0]), actions[1..]);
    }
  }

  /**
   * No lost wake-up. Under every interleaving, once recovery is done with a task: if no execution or
   * cancel of it is under way, watchers are not stopped and it is parked on a peer, then a live,
   * uncancelled, polling watcher for exactly that task and that peer exists.
   */
  lemma NoLostWakeUp(actions: seq<Action>, task: string)
    requires Legal(Initial(), actions) && NeverStale(Initial(), actions)
    ensures var s := After(Initial(), actions);
            && task in s.records && s.records[task].OnPeer? && !s.table.stopped
            && task !in s.live && task !in s.todo && task !in s.cancelling
            ==> Watched(s, task, s.records[task].peer)
  {
    RunKeepsInv(Initial(), actions);
  }

  /**
   * The watcher table over every run, stale recovery or not: at most one uncancelled watcher per task
   * is alive, every entry is uncancelled and alive, once stopped none is alive and uncancelled, the wait
   * group counts exactly the goroutines, and a dying watcher never takes its successor's entry along.
   */
  lemma {:induction false} TableIsSound(s: State, actions: seq<Action>)
    requires TableOk(s) && Legal(s, actions)
    ensures var t := After(s, actions);
            && TableOk(t)
            && (forall v, w | v in t.running && w in t.running && t.running[v].task == t.running[w].task
                              && v !in t.table.cancelled && w !in t.table.cancelled
                              && t.running[v].stage != Cleaned && t.running[w].stage != Cleaned :: v == w)
            && (t.table.stopped ==>
                  forall w | w in t.running :: w in t.table.cancelled || t.running[w].stage == Cleaned)
            && (forall w, x | Enabled(t, Clean(w)) && x in t.table.entries && t.table.entries[x] != w ::
                  x in Next(t, Clean(w)).table.entries && Next(t, Clean(w)).table.entries[x] == t.table.entries[x])
    decreases |actions|
  {
    if actions != [] {
      TableStep(s, actions[0]);
      TableIsSound(Next(s, actions[0]), actions[1..]);
    }
  }

  /**
   * A watcher gives up in three cases only: it was cancelled while it polled, it found its task no longer
   * parked on its peer, or its notice was delivered. A failed look or notice is tried again.
   */
  lemma GivesUpOnlyIf(s: State, a: Action, w: nat)
    requires TableOk(s) && Enabled(s, a) && !a.Restart? && w in s.running
    requires s.running[w].stage == Polling || s.running[w].stage == Found || s.running[w].stage == Delivering
    ensures w in Next(s, a).running
    ensures Next(s, a).running[w].stage == Leaving ==>
              || (a == Return(w) && (w in s.table.cancelled || s.running[w].stage == Delivering))
              || (a == Look(w) && !ParkedOn(s, s.running[w].task, s.running[w].peer))
    ensures a == Again(w) || a == Retry(w) ==> Next(s, a).running[w].stage == Polling
    ensures Next(s, a).running[w].stage != Cleaned
  {
    RunningStays(s, a, w);
  }

  /** A covering watcher can bring the wake-up: it looks, finds the task parked, and resumes it. */
  lemma WatchedWakes(s: State, task: string, peer: string)
    requires Watched(s, task, peer) && ParkedOn(s, task, peer) && task !in s.live
    ensures var w := s.table.entries[task];
            var found := if s.running[w].stage == Polling then Next(s, Look(w)) else s;
            && (s.running[w].stage == Polling ==> Enabled(s, Look(w)))
            && Enabled(found, Deliver(w))
            && Phased(Next(found, Deliver(w)), task, Waking(peer))
  {
  }

  // ----------------------------------------------- when recovery loses a wake-up

  /** Tasks recovery has not re-armed yet receive no message: the server opens only after recovery. */
  predicate Sheltered(s: State, a: Action) {
    match a
    case Message(t) => t !in s.todo
    case CancelStop(t) => t !in s.todo
    case Deliver(w) => w in s.running ==> s.running[w].task !in s.todo
    case _ => true
  }

  ghost predicate AllSheltered(s: State, actions: seq<Action>)
    requires Legal(s, actions)
    decreases |actions|
  {
    actions == [] || (Sheltered(s, actions[0]) && AllSheltered(Next(s, actions[0]), actions[1..]))
  }

  /** What recovery has read is still true. */
  ghost predicate ListFresh(s: State) {
    forall t | t in s.todo :: t !in s.live && t in s.records && s.records[t] == OnPeer(s.todo[t]) && t !in s.cancelling
  }

  lemma ListStaysFresh(s: State, a: Action)
    requires ListFresh(s) && Enabled(s, a) && Sheltered(s, a)
    ensures ListFresh(Next(s, a))
  {
  }

  /** With the server opened after recovery no list is out of date and nothing is armed too early. */
  lemma {:induction false} ShelteredIsSafe(s: State, actions: seq<Action>)
    requires ListFresh(s) && Legal(s, actions) && AllSheltered(s, actions)
    ensures NeverStale(s, actions) && NeverOverrun(s, actions)
    decreases |actions|
  {
    if actions != [] {
      ListStaysFresh(s, actions[0]);
      ShelteredIsSafe(Next(s, actions[0]), actions[1..]);
    }
  }

  // -------------------------------------------------------- notices in time

  /** Recovery arms a watcher for a wait that is just being ended, after its watcher was stopped. */
  predicate Overrun(s: State, task: string) {
    !s.table.stopped && Phased(s, task, Releasing)
  }

  ghost predicate NeverOverrun(s: State, actions: seq<Action>)
    requires Legal(s, actions)
    decreases |actions|
  {
    || actions == []
    || (!(actions[0].Rearm? && Overrun(s, actions[0].task)) && NeverOverrun(Next(s, actions[0]), actions[1..]))
  }

  /** A wait that is being ended has no entry. */
  ghost predicate ReleasedUnlisted(s: State) {
    forall t | t in s.table.entries :: !Phased(s, t, Releasing)
  }

  lemma ReleasedStaysUnlisted(s: State, a: Action)
    requires ReleasedUnlisted(s) && Enabled(s, a) && !(a.Rearm? && Overrun(s, a.task))
    ensures ReleasedUnlisted(Next(s, a))
  {
  }

  /** A recovery step spoils that exactly when it overruns the end of a wait. */
  lemma RearmKeepsUnlistedIff(s: State, task: string)
    requires ReleasedUnlisted(s) && Enabled(s, Rearm(task))
    ensures ReleasedUnlisted(Next(s, Rearm(task))) <==> !Overrun(s, task)
  {
    if Overrun(s, task) {
      assert task in Next(s, Rearm(task)).table.entries && Phased(Next(s, Rearm(task)), task, Releasing);
    } else {
      ReleasedStaysUnlisted(s, Rearm(task));
    }
  }

  /** The task is still in its wait for this peer, or its record is gone. */
  predicate InWait(s: State, task: string, peer: string) {
    && (task in s.records ==> s.records[task] == OnPeer(peer))
    && (task in s.live ==>
          || s.live[task] == Ending
          || ((s.live[task].Waking? || s.live[task].Saving?) && s.live[task].peer == peer))
  }

  /** A watcher about to give notice and not cancelled has its task still in the wait it watches. */
  ghost predicate NoticesTimely(s: State) {
    forall w | w in s.running && s.running[w].stage == Found && w !in s.table.cancelled ::
      InWait(s, s.running[w].task, s.running[w].peer)
  }

  /** Stopping or replacing a task's watcher cancels it. */
  lemma NotEnded(s: State, a: Action, w: nat)
    requires TableOk(s) && Enabled(s, a) && w in s.running && s.running[w].stage == Found
    requires w !in s.table.cancelled && w !in Next(s, a).table.cancelled
    ensures (a.Release? || a.CancelStop? || a.Arm? || a.Rearm?) ==> a.task != s.running[w].task
  {
    assert s.table.entries[s.running[w].task] == w;
  }

  lemma WaitGoesOn(s: State, a: Action, task: string, peer: string)
    requires Enabled(s, a) && !a.Restart? && InWait(s, task, peer) && !Unheard(s, task)
    requires (a.Release? || a.CancelStop? || a.Arm? || a.Rearm?) ==> a.task != task
    ensures InWait(Next(s, a), task, peer)
  {
  }

  lemma FoundIsInWait(s: State, w: nat)
    requires TableOk(s) && PhasesOk(s) && ReleasedUnlisted(s) && Enabled(s, Look(w)) && w !in s.table.cancelled
    requires ParkedOn(s, s.running[w].task, s.running[w].peer)
    ensures InWait(s, s.running[w].task, s.running[w].peer)
  {
    assert s.running[w].task in s.table.entries;
  }

  lemma NoticesStayTimely(s: State, a: Action)
    requires TableOk(s) && PhasesOk(s) && ReleasedUnlisted(s) && NoticesTimely(s) && Enabled(s, a)
    ensures NoticesTimely(Next(s, a))
  {
    var t := Next(s, a);
    forall w | w in t.running && t.running[w].stage == Found && w !in t.table.cancelled
      ensures InWait(t, t.running[w].task, t.running[w].peer)
    {
      if a == Look(w) {
        FoundIsInWait(s, w);
      } else {
        FoundBefore(s, a, w);
        RunningStays(s, a, w);
        NotEnded(s, a, w);
        WaitGoesOn(s, a, s.running[w].task, s.running[w].peer);
      }
    }
  }

  lemma CancelledForGood(s: State, a: Action, w: nat)
    requires Enabled(s, a) && !a.Restart? && w in s.table.cancelled
    ensures w in Next(s, a).table.cancelled
  {
  }

  lemma NotFoundYet(s: State, a: Action, w: nat)
    requires Enabled(s, a) && a != Look(w) && !(w in s.running && s.running[w].stage == Found)
    ensures w in Next(s, a).running ==> Next(s, a).running[w].stage != Found
  {
  }

  lemma FoundBefore(s: State, a: Action, w: nat)
    requires TableOk(s) && Enabled(s, a) && a != Look(w)
    requires var t := Next(s, a); w in t.running && t.running[w].stage == Found && w !in t.table.cancelled
    ensures !a.Restart? && w in s.running && s.running[w].stage == Found && w !in s.table.cancelled
  {
    if !(w in s.running && s.running[w].stage == Found) {
      NotFoundYet(s, a, w);
    } else if w in s.table.cancelled && !a.Restart? {
      CancelledForGood(s, a, w);
    }
  }

  lemma {:induction false} RunKeepsNotices(s: State, actions: seq<Action>)
    requires TableOk(s) && PhasesOk(s) && ReleasedUnlisted(s) && NoticesTimely(s)
    requires Legal(s, actions) && NeverOverrun(s, actions)
    ensures var t := After(s, actions); TableOk(t) && ReleasedUnlisted(t) && NoticesTimely(t)
    decreases |actions|
  {
    if actions != [] {
      TableStep(s, actions[0]);
      PhaseStep(s, actions[0]);
      ReleasedStaysUnlisted(s, actions[0]);
      NoticesStayTimely(s, actions[0]);
      RunKeepsNotices(Next(s, actions[0]), actions[1..]);
    }
  }

  /**
   * Unless recovery overruns the end of a wait, a watcher that has not been cancelled delivers its notice
   * to the very wait it watches, under every interleaving.
   */
  lemma UncancelledNoticeIsTimely(actions: seq<Action>, w: nat)
    requires Legal(Initial(), actions) && NeverOverrun(Initial(), actions)
    requires var s := After(Initial(), actions); Enabled(s, Deliver(w)) && w !in s.table.cancelled
    ensures var s := After(Initial(), actions);
            && ParkedOn(s, s.running[w].task, s.running[w].peer)
            && Phased(Next(s, Deliver(w)), s.running[w].task, Waking(s.running[w].peer))
  {
    RunKeepsNotices(Initial(), actions);
  }

  // ------------------------------------------------------------ concrete runs

  lemma Prepend(s: State, a: Action, rest: seq<Action>)
    requires Enabled(s, a) && Legal(Next(s, a), rest)
    ensures Legal(s, [a] + rest) && After(s, [a] + rest) == After(Next(s, a), rest)
    ensures NeverStale(s, [a] + rest) <==> !(a.Rearm? && Stale(s, a.task)) && NeverStale(Next(s, a), rest)
    ensures NeverOverrun(s, [a] + rest) <==> !(a.Rearm? && Overrun(s, a.task)) && NeverOverrun(Next(s, a), rest)
  {
    assert ([a] + rest)[1..] == rest;
  }

  /** Three steps, then the rest of a run. */
  lemma ThreeSteps(s: State, a: Action, b: Action, c: Action, t: State, rest: seq<Action>)
    requires Enabled(s, a) && Enabled(Next(s, a), b) && Enabled(Next(Next(s, a), b), c)
    requires Next(Next(Next(s, a), b), c) == t && Legal(t, rest)
    ensures var run := [a] + ([b] + ([c] + rest));
            && Legal(s, run) && After(s, run) == After(t, rest)
            && (NeverStale(s, run) <==>
                  && !(a.Rearm? && Stale(s, a.task)) && !(b.Rearm? && Stale(Next(s, a), b.task))
                  && !(c.Rearm? && Stale(Next(Next(s, a), b), c.task)) && NeverStale(t, rest))
  {
    Prepend(Next(Next(s, a), b), c, rest);
    Prepend(Next(s, a), b, [c] + rest);
    Prepend(s, a, [b] + ([c] + rest));
  }

  /** A task parked on p that recovery has read, but not yet re-armed, as of a restart. */
  function Restarted(): State {
    State(map["t" := OnPeer("p")], map[], Table(map[], {}, false, 0, 0), map[], map["t" := "p"], multiset{})
  }

  /** A message arrives first, and p has ended: the task acts again. */
  function Overtaken(): State {
    Restarted().(records := map["t" := Elsewhere], live := map["t" := Acting])
  }

  /** The task has parked on q, watched by watcher 0. */
  function Reparked(): State {
    State(map["t" := OnPeer("q")], map[], Table(map["t" := 0], {}, false, 1, 1),
          map[0 := Watcher("t", "q", Polling)], map["t" := "p"], multiset{})
  }

  /** Recovery has re-armed it for p, and that watcher has found nothing to wait for. */
  function Unwatched(): State {
    State(map["t" := OnPeer("q")], map[], Table(map[], {0}, false, 2, 2),
          map[0 := Watcher("t", "q", Polling), 1 := Watcher("t", "p", Cleaned)], map[], multiset{})
  }

  lemma OvertakenSteps(rest: seq<Action>)
    requires Legal(Overtaken(), rest)
    ensures var run := [Message("t")] + ([Release("t")] + ([SaveElsewhere("t")] + rest));
            Legal(Restarted(), run) && After(Restarted(), run) == After(Overtaken(), rest)
  {
    ThreeSteps(Restarted(), Message("t"), Release("t"), SaveElsewhere("t"), Overtaken(), rest);
  }

  lemma ReparkedSteps(rest: seq<Action>)
    requires Legal(Reparked(), rest)
    ensures var run := [Park("t", "q")] + ([Arm("t")] + ([End("t")] + rest));
            Legal(Overtaken(), run) && After(Overtaken(), run) == After(Reparked(), rest)
  {
    ThreeSteps(Overtaken(), Park("t", "q"), Arm("t"), End("t"), Reparked(), rest);
  }

  /** Recovery has just re-armed the task for p. */
  function Misarmed(): State {
    State(map["t" := OnPeer("q")], map[], Table(map["t" := 1], {0}, false, 2, 2),
          map[0 := Watcher("t", "q", Polling), 1 := Watcher("t", "p", Polling)], map[], multiset{})
  }

  lemma MisarmedStep()
    ensures Enabled(Reparked(), Rearm("t")) && Next(Reparked(), Rearm("t")) == Misarmed()
  {
  }

  lemma UnwatchedSteps()
    ensures var run := [Rearm("t")] + ([Look(1)] + ([Clean(1)] + []));
            Legal(Reparked(), run) && After(Reparked(), run) == Unwatched()
  {
    MisarmedStep();
    var left := Misarmed().(running := map[0 := Watcher("t", "q", Polling), 1 := Watcher("t", "p", Leaving)]);
    assert Next(Misarmed(), Look(1)) == left;
    assert Next(left, Clean(1)) == Unwatched();
    ThreeSteps(Reparked(), Rearm("t"), Look(1), Clean(1), Unwatched(), []);
  }

  // ------------------------------------------------------- notices too late

  /** A task parked on p whose watcher has found that p has moved. */
  function Noticed(): State {
    State(map["t" := OnPeer("p")], map[], Table(map["t" := 0], {}, false, 1, 1),
          map[0 := Watcher("t", "p", Found)], map[], multiset{})
  }

  /** A message has overtaken the notice: p's result is in, and the task waits for its human. */
  function MovedOn(): State {
    State(map["t" := Elsewhere], map[], Table(map[], {0}, false, 1, 1), map[0 := Watcher("t", "p", Found)], map[],
          multiset{})
  }

  /** A task parked on p and watched. */
  function Watching(): State {
    Noticed().(running := map[0 := Watcher("t", "p", Polling)])
  }

  lemma WatchingSteps(rest: seq<Action>)
    requires Legal(Watching(), rest)
    ensures var run := [NewTask("t")] + ([Park("t", "p")] + ([Arm("t")] + ([End("t")] + rest)));
            && Legal(Initial(), run) && After(Initial(), run) == After(Watching(), rest)
            && (NeverStale(Initial(), run) <==> NeverStale(Watching(), rest))
  {
    var armed := Watching().(live := map["t" := Ending]);
    assert Next(armed, End("t")) == Watching();
    Prepend(armed, End("t"), rest);
    ThreeSteps(Initial(), NewTask("t"), Park("t", "p"), Arm("t"), armed, [End("t")] + rest);
  }

  lemma NoticedSteps(rest: seq<Action>)
    requires Legal(Noticed(), rest)
    ensures var run := [NewTask("t")] + ([Park("t", "p")] + ([Arm("t")] + ([End("t")] + ([Look(0)] + rest))));
            Legal(Initial(), run) && After(Initial(), run) == After(Noticed(), rest)
  {
    assert Next(Watching(), Look(0)) == Noticed();
    Prepend(Watching(), Look(0), rest);
    WatchingSteps([Look(0)] + rest);
  }

  lemma MovedOnSteps()
    ensures var run := [Message("t")] + ([Release("t")] + ([SaveElsewhere("t")] + ([End("t")] + [])));
            Legal(Noticed(), run) && After(Noticed(), run) == MovedOn()
  {
    var acting := MovedOn().(live := map["t" := Acting]);
    assert Next(acting, End("t")) == MovedOn();
    Prepend(acting, End("t"), []);
    ThreeSteps(Noticed(), Message("t"), Release("t"), SaveElsewhere("t"), acting, [End("t")] + []);
  }

  /**
   * The check for a parked record and the notice are two steps, and a cancelled watcher still delivers. A
   * message can resume the task in between; the notice then reaches a task that waits for its human.
   */
  lemma CancelledNoticeCanBeLate() returns (run: seq<Action>, w: nat)
    ensures Legal(Initial(), run)
    ensures var s := After(Initial(), run);
            && Enabled(s, Deliver(w)) && w in s.table.cancelled
            && s.records[s.running[w].task] == Elsewhere
  {
    var later := [Message("t")] + ([Release("t")] + ([SaveElsewhere("t")] + ([End("t")] + [])));
    MovedOnSteps();
    NoticedSteps(later);
    run, w := [NewTask("t")] + ([Park("t", "p")] + ([Arm("t")] + ([End("t")] + ([Look(0)] + later)))), 0;
  }

  /** Recovery has armed watcher 0 while the execution was ending the wait, and the watcher has found it. */
  function ArmedTooEarly(): State {
    State(map["t" := OnPeer("p")], map["t" := Releasing], Table(map["t" := 0], {}, false, 1, 1),
          map[0 := Watcher("t", "p", Found)], map[], multiset{})
  }

  /** The task has moved on since, and waits for its human. */
  function Overrunning(): State {
    ArmedTooEarly().(records := map["t" := Elsewhere], live := map[])
  }

  lemma RestartedSteps(rest: seq<Action>)
    requires Legal(Restarted(), rest)
    ensures var run := [NewTask("t")] + ([Park("t", "p")] + ([Arm("t")] + ([End("t")] + ([Restart] + rest))));
            && Legal(Initial(), run) && After(Initial(), run) == After(Restarted(), rest)
            && (NeverStale(Initial(), run) <==> NeverStale(Restarted(), rest))
  {
    assert ParkedTasks(Watching()) == map["t" := "p"];
    assert Next(Watching(), Restart) == Restarted();
    Prepend(Watching(), Restart, rest);
    WatchingSteps([Restart] + rest);
  }

  /**
   * The source opens its server before it recovers. Then a message can move a task on to peer q while
   * recovery still holds p: re-arming replaces q's watcher by one for p, which finds the task not parked
   * on p and leaves. The task rests parked on q, recovery is over, and no live watcher is uncancelled.
   */
  lemma RecoveryRaceLosesWakeUp() returns (run: seq<Action>)
    ensures Legal(Initial(), run) && !NeverStale(Initial(), run)
    ensures var s := After(Initial(), run);
            && ParkedOn(s, "t", "q") && Waits(s, "t") && s.live == map[] && s.todo == map[] && !s.table.stopped
            && forall w | w in s.running :: w in s.table.cancelled || s.running[w].stage == Cleaned
  {
    var last := [Rearm("t")] + ([Look(1)] + ([Clean(1)] + []));
    var middle := [Park("t", "q")] + ([Arm("t")] + ([End("t")] + last));
    var late := [Message("t")] + ([Release("t")] + ([SaveElsewhere("t")] + middle));
    UnwatchedSteps();
    ReparkedSteps(last);
    OvertakenSteps(middle);
    RestartedSteps(late);
    run := [NewTask("t")] + ([Park("t", "p")] + ([Arm("t")] + ([End("t")] + ([Restart] + late))));
    assert Waits(Unwatched(), "t") && !Watched(Unwatched(), "t", "q");
    if NeverStale(Initial(), run) {
      RunKeepsInv(Initial(), run);
    }
  }

  lemma ArmedTooEarlySteps(rest: seq<Action>)
    requires Legal(ArmedTooEarly(), rest)
    ensures var run := [Message("t")] + ([Release("t")] + ([Rearm("t")] + ([Look(0)] + rest)));
            && Legal(Restarted(), run) && After(Restarted(), run) == After(ArmedTooEarly(), rest)
            && (NeverStale(Restarted(), run) <==> NeverStale(ArmedTooEarly(), rest))
  {
    var armed := ArmedTooEarly().(running := map[0 := Watcher("t", "p", Polling)]);
    assert Next(armed, Look(0)) == ArmedTooEarly();
    Prepend(armed, Look(0), rest);
    ThreeSteps(Restarted(), Message("t"), Release("t"), Rearm("t"), armed, [Look(0)] + rest);
  }

  lemma OverrunningSteps()
    ensures var run := [SaveElsewhere("t")] + ([End("t")] + []);
            && Legal(ArmedTooEarly(), run) && After(ArmedTooEarly(), run) == Overrunning()
            && NeverStale(ArmedTooEarly(), run)
  {
    var acting := Overrunning().(live := map["t" := Acting]);
    assert Next(acting, End("t")) == Overrunning();
    assert Next(ArmedTooEarly(), SaveElsewhere("t")) == acting;
    Prepend(acting, End("t"), []);
    Prepend(ArmedTooEarly(), SaveElsewhere("t"), [End("t")] + []);
  }

  /**
   * Recovery can arm between the stop of a watcher and the save that ends its wait, after the stop that
   * should have cancelled it: then even an uncancelled watcher gives notice to a task that waits for its
   * human, although no list was ever out of date.
   */
  lemma OverrunNoticeCanBeLate() returns (run: seq<Action>, w: nat)
    ensures Legal(Initial(), run) && NeverStale(Initial(), run) && !NeverOverrun(Initial(), run)
    ensures var s := After(Initial(), run);
            && Enabled(s, Deliver(w)) && w !in s.table.cancelled
            && s.records[s.running[w].task] == Elsewhere
  {
    var last := [SaveElsewhere("t")] + ([End("t")] + []);
    var middle := [Message("t")] + ([Release("t")] + ([Rearm("t")] + ([Look(0)] + last)));
    OverrunningSteps();
    ArmedTooEarlySteps(last);
    RestartedSteps(middle);
    run, w := [NewTask("t")] + ([Park("t", "p")] + ([Arm("t")] + ([End("t")] + ([Restart] + middle)))), 0;
    if NeverOverrun(Initial(), run) {
      UncancelledNoticeIsTimely(run, w);
    }
  }

  // --------------------------------------------- records of cancelled tasks

  /** The record is gone, and no execution is left that could save it again. */
  predicate Gone(s: State, task: string) {
    task !in s.records && (task in s.live ==> s.live[task] == Ending || s.live[task].Saving?)
  }

  lemma {:induction false} GoneStays(s: State, task: string, actions: seq<Action>)
    requires Gone(s, task) && Legal(s, actions) && NewTask(task) !in actions
    ensures task !in After(s, actions).records
    decreases |actions|
  {
    if actions != [] {
      GoneOnce(s, task, actions[0]);
      GoneStays(Next(s, actions[0]), task, actions[1..]);
    }
  }

  lemma GoneOnce(s: State, task: string, a: Action)
    requires Gone(s, task) && Enabled(s, a) && a != NewTask(task)
    ensures Gone(Next(s, a), task)
  {
  }

  /**
   * A cancelled task's record stays deleted, until its id is named anew, exactly when no execution was left
   * at the deletion that had yet to save: beside one that has, the next save brings the record back.
   */
  lemma DeletedForGoodIff(s: State, task: string)
    requires Enabled(s, CancelDelete(task))
    ensures (forall actions | Legal(Next(s, CancelDelete(task)), actions) && NewTask(task) !in actions ::
               task !in After(Next(s, CancelDelete(task)), actions).records)
            <==> (task in s.live ==> s.live[task] == Ending || s.live[task].Saving?)
  {
    var t := Next(s, CancelDelete(task));
    if task in s.live ==> s.live[task] == Ending || s.live[task].Saving? {
      forall actions | Legal(t, actions) && NewTask(task) !in actions
        ensures task !in After(t, actions).records
      {
        GoneStays(t, task, actions);
      }
    } else {
      var save := if s.live[task].Waking? then Repark(task) else SaveElsewhere(task);
      Prepend(t, save, []);
      assert NewTask(task) !in [save] + [];
      assert task in After(t, [save] + []).records;
    }
  }

  /** From the start: a task is cancelled while it runs, and its record is back. */
  lemma CancelledRecordComesBack() returns (run: seq<Action>)
    ensures Legal(Initial(), run)
    ensures var s := After(Initial(), run);
            s.records == map["t" := Elsewhere] && s.cancelling == multiset{} && CancelDelete("t") in run
  {
    var acting := Initial().(live := map["t" := Acting]);
    var back := acting.(records := map["t" := Elsewhere]);
    run := [NewTask("t")] + ([CancelStop("t")] + ([CancelDelete("t")] + ([SaveElsewhere("t")] + [])));
    assert Next(Next(Next(Initial(), NewTask("t")), CancelStop("t")), CancelDelete("t")) == acting;
    assert Next(acting, SaveElsewhere("t")) == back;
    Prepend(acting, SaveElsewhere("t"), []);
    ThreeSteps(Initial(), NewTask("t"), CancelStop("t"), CancelDelete("t"), acting, [SaveElsewhere("t")] + []);
    assert run[2] == CancelDelete("t");
  }
}
