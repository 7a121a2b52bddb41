/**
 * The supervisor itself: an object whose methods rewrite a task record step by step, act through the
 * policy engine, save to the store and arm peer watchers. Each method is proved against the functions
 * of the Machine and FollowUps modules.
 */
module Supervisors {
  import opened Basics
  import opened BoundedContext
  import opened Tasks
  import opened RiskPolicy
  import opened Machine
  import opened TaskStore
  import opened WatcherTable
  import opened FollowUps
  import WakeUp

  predicate ParkedOnPeer(rec: TaskRecord) {
    rec.state == InputRequired && rec.AwaitsPeer()
  }

  /** The watcher table after an execution that ended with `rec`: armed for it if it is parked on a peer. */
  function TableFor(before: Table, rec: TaskRecord): Table {
    if ParkedOnPeer(rec) then Armed(before, rec.taskId) else before
  }

  /** That is what the table is; only a park on a peer without a name can arm unseen. */
  ghost predicate TableAfter(env: Env, before: Table, after: Table, rec: TaskRecord) {
    && (after == TableFor(before, rec) || after == Armed(before, rec.taskId))
    && (NamesPeers(env) ==> after == TableFor(before, rec))
  }

  /** The table once a message has found the record: its watcher is stopped unless the wait goes on. */
  function TableFound(env: Env, table: Table, rec: TaskRecord, input: string, read: PeerRead): Table {
    if rec.AwaitsPeer() && !Reparks(env, rec, input, read) then Stopped(table, rec.taskId) else table
  }

  /** What a save means to the wait of the task. */
  predicate SavesAs(rec: TaskRecord, a: WakeUp.Action) {
    match a
    case SaveElsewhere(t) => t == rec.taskId && !ParkedOnPeer(rec)
    case Park(t, p) => t == rec.taskId && rec.state == InputRequired && p == rec.awaitingTaskId
    case Repark(t) => t == rec.taskId && ParkedOnPeer(rec)
    case _ => false
  }

  class Supervisor {
    const env: Env
    const store: Store
    const engine: Engine
    const watchers: Watchers
    var logs: map<string, History>  // what each task has done so far
    ghost var phase: WakeUp.Phase   // where the execution stands between its steps on store and watchers

    ghost predicate Valid()
      reads this, store, engine
    {
      store.Valid() && engine.Valid()
    }

    constructor (env: Env, store: Store)
      requires store.Valid()
      ensures Valid() && this.env == env && this.store == store && fresh(engine) && fresh(watchers)
      ensures logs == map[] && engine.issued == {} && watchers.State() == Table(map[], {}, false, 0, 0)
    {
      this.env := env;
      this.store := store;
      engine := new Engine();
      watchers := new Watchers();
      logs := map[];
      phase := WakeUp.Acting;
    }

    // ------------------------------------------- steps on store and watchers

    method SaveAs(rec: TaskRecord, ghost a: WakeUp.Action)
      requires Valid() && WakeUp.Allows(phase, a) && SavesAs(rec, a)
      requires a.Repark? ==> phase.peer == rec.awaitingTaskId
      modifies this`phase, store
      ensures Valid() && store.records == Saved(old(store.records), rec)
      ensures store.saves == old(store.saves) + [rec]
      ensures phase == WakeUp.PhaseAfter(old(phase), a)
    {
      store.Save(rec);
      phase := WakeUp.PhaseAfter(phase, a);
    }

    method ArmFor(rec: TaskRecord)
      requires phase == WakeUp.Saving(rec.awaitingTaskId)
      modifies this`phase, watchers
      ensures watchers.State() == Armed(old(watchers.State()), rec.taskId)
      ensures phase == WakeUp.PhaseAfter(old(phase), WakeUp.Arm(rec.taskId))
    {
      var w, started := watchers.Arm(rec.taskId);
      phase := WakeUp.PhaseAfter(phase, WakeUp.Arm(rec.taskId));
    }

    method StopFor(rec: TaskRecord)
      requires WakeUp.Allows(phase, WakeUp.Release(rec.taskId))
      modifies this`phase, watchers
      ensures watchers.State() == Stopped(old(watchers.State()), rec.taskId)
      ensures phase == WakeUp.PhaseAfter(old(phase), WakeUp.Release(rec.taskId))
    {
      watchers.Stop(rec.taskId);
      phase := WakeUp.PhaseAfter(phase, WakeUp.Release(rec.taskId));
    }

    /** Nothing is left to arm: the execution may end. */
    ghost predicate MayEnd(rec: TaskRecord)
      reads this
    {
      WakeUp.Allows(phase, WakeUp.End(rec.taskId))
    }

    // ------------------------------------------------------------ actions

    method Record(id: string, e: Effect)
      requires id in logs
      modifies this`logs
      ensures logs == old(logs)[id := old(logs[id]) + [e]]
    {
      logs := logs[id := logs[id] + [e]];
    }

    /** One delegation: opens a task on the peer and maps the peer's state onto this task's fate. */
    method ExecuteDelegation(id: string, role: string, body: string) returns (o: Outcome, ok: bool)
      requires id in logs
      modifies this`logs
      ensures var a := Delegate(env, id, old(logs[id]), role, body);
              o == a.outcome && ok == a.ok && logs == old(logs)[id := a.log]
    {
      if !env.hasDelegator {
        return NO_OUTCOME, false;
      }
      if role == "" {
        return NO_OUTCOME, false;
      }
      var reply := env.delegate(id, logs[id], role, body);
      Record(id, Delegated(role, body, reply));
      if reply == DelegateFailed {
        return NO_OUTCOME, false;
      }
      var (outcome, fine) := OutcomeForPeer(role, reply.result);
      if fine && outcome.parked && !env.hasResumer {
        return NO_OUTCOME, false;
      }
      return outcome, fine;
    }

    /** Acts only on a token this engine issued, and spends it. */
    method ExecuteAction(id: string, i: Intent, token: nat) returns (o: Outcome, ok: bool)
      requires engine.Valid() && id in logs
      modifies this`logs, engine
      ensures engine.Valid() && engine.issued == old(engine.issued) - {token} && engine.next == old(engine.next)
      ensures token !in old(engine.issued) ==> !ok && o == NO_OUTCOME && logs == old(logs)
      ensures token in old(engine.issued) ==>
                var a := Act(env, id, old(logs[id]), i);
                o == a.outcome && ok == a.ok && logs == old(logs)[id := a.log]
    {
      var valid := engine.Validate(token);
      if !valid {
        return NO_OUTCOME, false;
      }
      Record(id, Released(i));
      if i.kind == DELEGATE_TASK {
        o, ok := ExecuteDelegation(id, i.target, i.body);
        return;
      }
      if !env.hasGateway {
        return NO_OUTCOME, false;
      }
      ok := env.gateway(id, logs[id], i.body);
      Record(id, Sent(i.body, ok));
      return NO_OUTCOME, ok;
    }

    // ------------------------------------------------------------ parking

    /** Persists the record as parked on its peer and arms the watcher. */
    method Repark(rec: TaskRecord, ghost a: WakeUp.Action) returns (parked: TaskRecord)
      requires Valid() && WakeUp.Allows(phase, a) && SavesAs(rec.(state := InputRequired), a) && !a.SaveElsewhere?
      requires a.Repark? ==> phase.peer == rec.awaitingTaskId
      modifies this`phase, store, watchers
      ensures Valid() && parked == rec.(state := InputRequired)
      ensures store.records == Saved(old(store.records), parked) && store.saves == old(store.saves) + [parked]
      ensures watchers.State() == Armed(old(watchers.State()), rec.taskId)
      ensures phase == WakeUp.Ending
    {
      parked := rec.(state := InputRequired);
      SaveAs(parked, a);
      ArmFor(parked);
    }

    method MarkFailed(rec: TaskRecord) returns (failed: TaskRecord)
      requires Valid() && (phase == WakeUp.Releasing || phase == WakeUp.Acting)
      modifies this`phase, store
      ensures Valid() && failed == rec.(state := Failed)
      ensures store.saves == old(store.saves) + [failed]
      ensures store.records == Saved(old(store.records), failed) && phase == WakeUp.Acting
    {
      failed := rec.(state := Failed);
      SaveAs(failed, WakeUp.SaveElsewhere(rec.taskId));
    }

    // ----------------------------------------------------------- one intent

    /** The permitted branch: act, then fail, park or go on. */
    method PerformIntent(rec: TaskRecord, i: Intent, rest: seq<Intent>, token: nat)
      returns (next: TaskRecord, halted: bool)
      requires Valid() && rec.taskId in logs && token in engine.issued && !rec.AwaitsPeer()
      requires phase == WakeUp.Acting
      modifies this`logs, this`phase, store, engine, watchers
      ensures Valid() && engine.issued == old(engine.issued) - {token} && engine.next == old(engine.next)
      ensures var w := Perform(env, rec, old(logs[rec.taskId]), i, rest);
              next == w.rec && halted == w.halted && logs == old(logs)[rec.taskId := w.log]
      ensures store.saves == if halted then old(store.saves) + [next] else old(store.saves)
      ensures store.records == if halted then Saved(old(store.records), next) else old(store.records)
      ensures !halted ==> watchers.State() == old(watchers.State()) && !next.AwaitsPeer() && phase == WakeUp.Acting
      ensures halted ==> TableAfter(env, old(watchers.State()), watchers.State(), next) && MayEnd(next)
    {
      if NamesPeers(env) {
        ParksOnNamed(env, rec.taskId, logs[rec.taskId], i);
      }
      var o, ok := ExecuteAction(rec.taskId, i, token);
      next, halted := TakeUp(rec, o, ok, rest);
    }

    /** The outcome of a permitted intent: fails, parks or goes on. */
    method TakeUp(rec: TaskRecord, o: Outcome, ok: bool, rest: seq<Intent>) returns (next: TaskRecord, halted: bool)
      requires Valid() && !rec.AwaitsPeer() && phase == WakeUp.Acting
      requires NamesPeers(env) && ok && o.parked ==> o.peerTaskId != ""
      modifies this`phase, store, watchers
      ensures Valid()
      ensures forall log :: Walk(next, log, halted) == AfterAction(rec, Acted(o, ok, log), rest)
      ensures store.saves == if halted then old(store.saves) + [next] else old(store.saves)
      ensures store.records == if halted then Saved(old(store.records), next) else old(store.records)
      ensures !halted ==> watchers.State() == old(watchers.State()) && !next.AwaitsPeer() && phase == WakeUp.Acting
      ensures halted ==> TableAfter(env, old(watchers.State()), watchers.State(), next) && MayEnd(next)
    {
      var rec1 := RecordDelegation(rec, o);
      if !ok {
        next := MarkFailed(rec1.(remaining := []));
        return next, true;
      }
      if o.parked {
        next := Repark(rec1.(
                       awaitingRole := o.peerRole,
                       awaitingTaskId := o.peerTaskId,
                       awaitingApproval := o.peerApproval,
                       remaining := rest),
                       WakeUp.Park(rec.taskId, o.peerTaskId));
        return next, true;
      }
      if o.delegated {
        rec1 := rec1.AddTurn(Message(Peer, o.output));
      }
      return rec1, false;
    }

    /** Classifies one intent and routes it. */
    method RunOne(rec: TaskRecord, i: Intent, rest: seq<Intent>) returns (next: TaskRecord, halted: bool)
      requires Valid() && rec.taskId in logs && !rec.AwaitsPeer() && phase == WakeUp.Acting
      modifies this`logs, this`phase, store, engine, watchers
      ensures Valid() && engine.issued == old(engine.issued)
      ensures var w := RunIntent(env, rec, old(logs[rec.taskId]), i, rest);
              next == w.rec && halted == w.halted && logs == old(logs)[rec.taskId := w.log]
      ensures next.taskId == rec.taskId
      ensures store.saves == if halted then old(store.saves) + [next] else old(store.saves)
      ensures store.records == if halted then Saved(old(store.records), next) else old(store.records)
      ensures !halted ==> watchers.State() == old(watchers.State()) && !next.AwaitsPeer() && phase == WakeUp.Acting
      ensures halted ==> TableAfter(env, old(watchers.State()), watchers.State(), next) && MayEnd(next)
    {
      var verdict, token := engine.ClassifyIntent(env, i.kind);
      match verdict
      case HardDeny =>
        next, halted := rec.(state := Rejected, remaining := []), true;
        SaveAs(next, WakeUp.SaveElsewhere(rec.taskId));
      case Escalate =>
        next, halted := rec.(state := InputRequired, pending := i, remaining := rest), true;
        SaveAs(next, WakeUp.SaveElsewhere(rec.taskId));
      case Permit =>
        next, halted := PerformIntent(rec, i, rest, token.value);
    }

    /** Walks a turn's intents in emission order; a halt has already persisted the record. */
    method RunIntents(rec: TaskRecord, intents: seq<Intent>) returns (next: TaskRecord, halted: bool)
      requires Valid() && rec.taskId in logs && !rec.AwaitsPeer() && phase == WakeUp.Acting
      modifies this`logs, this`phase, store, engine, watchers
      ensures Valid() && engine.issued == old(engine.issued)
      ensures var w := Machine.RunIntents(env, rec, old(logs[rec.taskId]), intents);
              next == w.rec && halted == w.halted && logs == old(logs)[rec.taskId := w.log]
      ensures next.taskId == rec.taskId
      ensures store.saves == if halted then old(store.saves) + [next] else old(store.saves)
      ensures store.records == if halted then Saved(old(store.records), next) else old(store.records)
      ensures !halted ==> watchers.State() == old(watchers.State()) && !next.AwaitsPeer() && phase == WakeUp.Acting
      ensures halted ==> TableAfter(env, old(watchers.State()), watchers.State(), next) && MayEnd(next)
    {
      next, halted := rec, false;
      ghost var id, w := rec.taskId, Machine.RunIntents(env, rec, logs[rec.taskId], intents);
      for k := 0 to |intents|
        invariant Valid() && engine.issued == old(engine.issued)
        invariant !halted && next.taskId == id && id in logs && !next.AwaitsPeer() && phase == WakeUp.Acting
        invariant logs == old(logs)[id := logs[id]]
        invariant store.records == old(store.records) && store.saves == old(store.saves)
        invariant watchers.State() == old(watchers.State())
        invariant w == Machine.RunIntents(env, next, logs[id], intents[k..])
      {
        WalkOnce(env, next, logs[id], intents, k);
        next, halted := RunOne(next, intents[k], intents[k + 1..]);
        if halted {
          return;
        }
      }
    }

    // -------------------------------------------------------------- rounds

    method InputFor(rec: TaskRecord) returns (input: string)
      ensures input == RoundInput(env, rec)
    {
      input := rec.input;
      if |rec.turns| > 1 {
        var assembled := AssembleBoundedContext(rec.turns, env.Budget(), TRUNCATION_MARKER);
        input := FlattenContext(assembled.messages);
      }
    }

    method Ask(rec: TaskRecord) returns (ans: ProviderAnswer)
      requires rec.taskId in logs
      modifies this`logs
      ensures var input := RoundInput(env, rec);
              && ans == env.provider(rec.taskId, old(logs[rec.taskId]), input)
              && logs == old(logs)[rec.taskId := old(logs[rec.taskId]) + [Asked(input, ans)]]
    {
      var input := InputFor(rec);
      ans := env.provider(rec.taskId, logs[rec.taskId], input);
      Record(rec.taskId, Asked(input, ans));
    }

    /** Puts the provider's answer on the record; a finish next to a delegation is discarded. */
    method Receive(rec: TaskRecord, ans: ProviderAnswer) returns (next: TaskRecord, intents: seq<Intent>)
      requires ans.Ran?
      ensures next == TakeAnswer(rec, ans) && intents == TurnIntents(ans)
    {
      var actions, finish, finished := SplitFinishTask(ans.intents);
      var delegates := AnyDelegation(actions);
      if finished && delegates {
        finish, finished := "", false;
      }
      next := rec.(output := ans.output).AddTurn(Message(Assistant, ans.output));
      if finished && finish != "" {
        next := next.(output := finish);
      }
      next := next.(finishRequested := finished);
      intents := PendingIntents(actions);
    }

    /** Calls the provider and runs the turn it answers with. */
    method RunRound(rec: TaskRecord) returns (next: TaskRecord, halted: bool)
      requires Valid() && rec.taskId in logs && !rec.AwaitsPeer() && phase == WakeUp.Acting
      modifies this`logs, this`phase, store, engine, watchers
      ensures Valid() && engine.issued == old(engine.issued)
      ensures var w := RoundWalk(env, rec, old(logs[rec.taskId]));
              next == w.rec && halted == w.halted && logs == old(logs)[rec.taskId := w.log]
      ensures next.taskId == rec.taskId
      ensures store.saves == if halted then old(store.saves) + [next] else old(store.saves)
      ensures store.records == if halted then Saved(old(store.records), next) else old(store.records)
      ensures !halted ==> watchers.State() == old(watchers.State()) && !next.AwaitsPeer() && phase == WakeUp.Acting
      ensures halted ==> TableAfter(env, old(watchers.State()), watchers.State(), next) && MayEnd(next)
    {
      var ans := Ask(rec);
      if ans == RunFailed {
        next := MarkFailed(rec);
        return next, true;
      }
      next, halted := RunTurn(rec, ans);
      assert logs == old(logs)[rec.taskId := logs[rec.taskId]];
    }

    /** Takes the provider's answer and runs what it asks for. */
    method RunTurn(rec: TaskRecord, ans: ProviderAnswer) returns (next: TaskRecord, halted: bool)
      requires Valid() && rec.taskId in logs && !rec.AwaitsPeer() && phase == WakeUp.Acting && ans.Ran?
      modifies this`logs, this`phase, store, engine, watchers
      ensures Valid() && engine.issued == old(engine.issued)
      ensures var w := Machine.RunIntents(env, TakeAnswer(rec, ans), old(logs[rec.taskId]), TurnIntents(ans));
              next == w.rec && halted == w.halted && logs == old(logs)[rec.taskId := w.log]
      ensures next.taskId == rec.taskId
      ensures store.saves == if halted then old(store.saves) + [next] else old(store.saves)
      ensures store.records == if halted then Saved(old(store.records), next) else old(store.records)
      ensures !halted ==> watchers.State() == old(watchers.State()) && !next.AwaitsPeer() && phase == WakeUp.Acting
      ensures halted ==> TableAfter(env, old(watchers.State()), watchers.State(), next) && MayEnd(next)
    {
      var answered, intents := Receive(rec, ans);
      next, halted := RunIntents(answered, intents);
    }

    /** The decision at the end of a turn: complete, give up at the cap, or go round again. */
    method CloseTurn(rec: TaskRecord) returns (next: TaskRecord, over: bool)
      requires Valid() && !rec.AwaitsPeer() && phase == WakeUp.Acting
      modifies this`phase, store
      ensures Valid() && phase == WakeUp.Acting && next == EndTurn(env, rec).rec && over == !EndTurn(env, rec).Continue?
      ensures store.saves == old(store.saves)
              + (if EndTurn(env, rec).Exhausted? then [rec.(finishRequested := false)] else []) + [next]
      ensures store.records == Saved(old(store.records), next)
    {
      var finished := rec.finishRequested;
      next := rec.(finishRequested := false);
      if finished || |next.turns| == 0 || next.turns[|next.turns| - 1].role != Peer {
        next := next.(state := Completed);
        SaveAs(next, WakeUp.SaveElsewhere(rec.taskId));
        return next, true;
      }
      SaveAs(next, WakeUp.SaveElsewhere(rec.taskId));
      var rounds := SpentRounds(next);
      if rounds >= env.MaxRounds() {
        ghost var kept := next;
        next := MarkFailed(next.(output := RoundLimitText(env)));
        SaveTwice(old(store.records), kept, next);
        return next, true;
      }
      return next, false;
    }

    /** One pass through the loop: a round unless the turn has already run, then the end of the turn. */
    method Iterate(rec: TaskRecord, midTurn: bool) returns (next: TaskRecord, over: bool)
      requires Valid() && rec.taskId in logs && !rec.AwaitsPeer() && phase == WakeUp.Acting
      modifies this`logs, this`phase, store, engine, watchers
      ensures Valid() && engine.issued == old(engine.issued)
      ensures next.taskId == rec.taskId && rec.taskId in logs
      ensures logs == old(logs)[rec.taskId := logs[rec.taskId]]
      ensures LoopResult(env, rec, old(logs[rec.taskId]), midTurn)
           == if over then Rest(next, logs[rec.taskId]) else LoopResult(env, next, logs[rec.taskId], false)
      ensures old(store.saves) <= store.saves
      ensures store.records == Saved(old(store.records), next)
      ensures over ==> TableAfter(env, old(watchers.State()), watchers.State(), next) && MayEnd(next)
      ensures !over ==>
                && !next.AwaitsPeer() && phase == WakeUp.Acting && watchers.State() == old(watchers.State())
                && (midTurn || RoundsLeft(env, next) < RoundsLeft(env, rec))
                && RoundsLeft(env, next) <= RoundsLeft(env, rec)
    {
      next, over := rec, false;
      if !midTurn {
        LoopOnce(env, rec, logs[rec.taskId]);
        next, over := RunRound(rec);
        if over {
          return;
        }
      }
      next, over := CloseTurn(next);
    }

    /** The provider loop; `midTurn` enters it at the end of a turn whose intents have all run. */
    method RunRounds(rec: TaskRecord, midTurn: bool) returns (final: TaskRecord)
      requires Valid() && rec.taskId in logs && !rec.AwaitsPeer() && phase == WakeUp.Acting
      modifies this`logs, this`phase, store, engine, watchers
      ensures Valid() && engine.issued == old(engine.issued) && rec.taskId in logs
      ensures Rest(final, logs[rec.taskId]) == LoopResult(env, rec, old(logs[rec.taskId]), midTurn)
      ensures logs == old(logs)[rec.taskId := logs[rec.taskId]] && final.taskId == rec.taskId
      ensures old(store.saves) <= store.saves
      ensures store.records == Saved(old(store.records), final)
      ensures TableAfter(env, old(watchers.State()), watchers.State(), final) && MayEnd(final)
    {
      ghost var id, files, table := rec.taskId, store.records, watchers.State();
      ghost var goal := LoopResult(env, rec, logs[id], midTurn);
      var over;
      final, over := Iterate(rec, midTurn);
      while !over
        invariant Valid() && engine.issued == old(engine.issued)
        invariant id in logs && logs == old(logs)[id := logs[id]] && final.taskId == id
        invariant goal == if over then Rest(final, logs[id]) else LoopResult(env, final, logs[id], false)
        invariant store.records == Saved(files, final) && old(store.saves) <= store.saves
        invariant over ==> TableAfter(env, table, watchers.State(), final) && MayEnd(final)
        invariant !over ==> !final.AwaitsPeer() && phase == WakeUp.Acting && watchers.State() == table
        decreases !over, RoundsLeft(env, final)
      {
        ghost var before := final;
        final, over := Iterate(final, false);
        SaveTwice(files, before, final);
      }
    }

    // ------------------------------------------------- entries of an execution

    /** Runs the rest of a turn, then the loop. */
    method ContinueTurn(rec: TaskRecord, intents: seq<Intent>) returns (final: TaskRecord)
      requires Valid() && rec.taskId in logs && !rec.AwaitsPeer() && phase == WakeUp.Acting
      modifies this`logs, this`phase, store, engine, watchers
      ensures Valid() && engine.issued == old(engine.issued) && rec.taskId in logs
      ensures Rest(final, logs[rec.taskId]) == FinishTurn(env, rec, old(logs[rec.taskId]), intents)
      ensures logs == old(logs)[rec.taskId := logs[rec.taskId]] && final.taskId == rec.taskId
      ensures old(store.saves) <= store.saves
      ensures store.records == Saved(old(store.records), final)
      ensures TableAfter(env, old(watchers.State()), watchers.State(), final) && MayEnd(final)
    {
      var next, halted := RunIntents(rec, intents);
      if halted {
        return next;
      }
      final := RunRounds(next, true);
    }

    method ExecuteWithPolicy(rec: TaskRecord) returns (final: TaskRecord)
      requires Valid() && rec.taskId in logs && !rec.AwaitsPeer() && phase == WakeUp.Acting
      modifies this`logs, this`phase, store, engine, watchers
      ensures Valid() && engine.issued == old(engine.issued) && rec.taskId in logs
      ensures Rest(final, logs[rec.taskId]) == Machine.ExecuteWithPolicy(env, rec, old(logs[rec.taskId]))
      ensures logs == old(logs)[rec.taskId := logs[rec.taskId]] && final.taskId == rec.taskId
      ensures old(store.saves) <= store.saves
      ensures store.records == Saved(old(store.records), final)
      ensures TableAfter(env, old(watchers.State()), watchers.State(), final) && MayEnd(final)
    {
      var first := rec;
      if |rec.turns| == 0 {
        first := rec.AddTurn(Message(User, rec.input));
      }
      final := RunRounds(first, false);
    }

    /** Mints a token for the approved intent and acts on it. */
    method CarryOutApproved(rec: TaskRecord) returns (o: Outcome, ok: bool)
      requires Valid() && rec.taskId in logs
      modifies this`logs, engine
      ensures Valid() && engine.issued == old(engine.issued)
      ensures var a := Act(env, rec.taskId, old(logs[rec.taskId]) + [Approved(rec.pending)], rec.pending);
              o == a.outcome && ok == a.ok && logs == old(logs)[rec.taskId := a.log]
      ensures NamesPeers(env) && ok && o.parked ==> o.peerTaskId != ""
    {
      if NamesPeers(env) {
        ParksOnNamed(env, rec.taskId, logs[rec.taskId] + [Approved(rec.pending)], rec.pending);
      }
      Record(rec.taskId, Approved(rec.pending));
      var token := engine.Mint();
      o, ok := ExecuteAction(rec.taskId, rec.pending, token);
    }

    /** A human verdict on the pending intent: anything but "approve" rejects. */
    method ExecuteVerdict(rec: TaskRecord, input: string) returns (final: TaskRecord)
      requires Valid() && rec.taskId in logs && !rec.AwaitsPeer() && phase == WakeUp.Acting
      modifies this`logs, this`phase, store, engine, watchers
      ensures Valid() && engine.issued == old(engine.issued) && rec.taskId in logs
      ensures Rest(final, logs[rec.taskId]) == ResumeVerdict(env, rec, old(logs[rec.taskId]), input)
      ensures logs == old(logs)[rec.taskId := logs[rec.taskId]] && final.taskId == rec.taskId
      ensures old(store.saves) <= store.saves
      ensures store.records == Saved(old(store.records), final)
      ensures TableAfter(env, old(watchers.State()), watchers.State(), final) && MayEnd(final)
    {
      if input != APPROVE {
        final := rec.(state := Rejected);
        SaveAs(final, WakeUp.SaveElsewhere(rec.taskId));
        return;
      }
      var o, ok := CarryOutApproved(rec);
      final := GoOn(rec, o, ok);
    }

    /** The approved intent has been acted on: fails, parks, or runs what is queued behind it. */
    method GoOn(rec: TaskRecord, o: Outcome, ok: bool) returns (final: TaskRecord)
      requires Valid() && rec.taskId in logs && !rec.AwaitsPeer() && phase == WakeUp.Acting
      requires NamesPeers(env) && ok && o.parked ==> o.peerTaskId != ""
      modifies this`logs, this`phase, store, engine, watchers
      ensures Valid() && engine.issued == old(engine.issued) && rec.taskId in logs
      ensures Rest(final, logs[rec.taskId]) == AfterApproval(env, rec, Acted(o, ok, old(logs[rec.taskId])))
      ensures logs == old(logs)[rec.taskId := logs[rec.taskId]] && final.taskId == rec.taskId
      ensures old(store.saves) <= store.saves
      ensures store.records == Saved(old(store.records), final)
      ensures TableAfter(env, old(watchers.State()), watchers.State(), final) && MayEnd(final)
    {
      var next := RecordDelegation(rec, o);
      if !ok {
        final := MarkFailed(next);
        return;
      }
      var remaining := next.remaining;
      if o.parked {
        final := Repark(ParkOnPeer(next.(pending := NO_INTENT), o, remaining), WakeUp.Park(rec.taskId, o.peerTaskId));
        return;
      }
      if o.delegated {
        next := next.AddTurn(Message(Peer, o.output));
      }
      next := next.(pending := NO_INTENT, remaining := []);
      final := ContinueTurn(next, remaining);
    }

    /** Fails a task that was parked on a peer; its watcher is stopped. */
    method FailWait(rec: TaskRecord) returns (final: TaskRecord)
      requires Valid() && phase.Waking?
      modifies this`phase, store, watchers
      ensures Valid() && final == ClearPeer(rec).(state := Failed)
      ensures store.saves == old(store.saves) + [final]
      ensures store.records == Saved(old(store.records), final)
      ensures watchers.State() == Stopped(old(watchers.State()), rec.taskId) && MayEnd(final)
    {
      StopFor(rec);
      final := MarkFailed(ClearPeer(rec));
    }

    /** A message to a task parked on a peer; only what the peer reads as now releases it. */
    method ResumeFromPeer(rec: TaskRecord, input: string, read: PeerRead) returns (final: TaskRecord)
      requires Valid() && rec.taskId in logs && rec.AwaitsPeer() && phase == WakeUp.Waking(rec.awaitingTaskId)
      modifies this`logs, this`phase, store, engine, watchers
      ensures Valid() && engine.issued == old(engine.issued) && rec.taskId in logs
      ensures Rest(final, logs[rec.taskId]) == Machine.ResumeFromPeer(env, rec, old(logs[rec.taskId]), input, read)
      ensures logs == old(logs)[rec.taskId := logs[rec.taskId]] && final.taskId == rec.taskId
      ensures old(store.saves) <= store.saves
      ensures store.records == Saved(old(store.records), final)
      ensures TableAfter(env, TableFound(env, old(watchers.State()), rec, input, read), watchers.State(), final)
      ensures MayEnd(final)
    {
      if !env.hasDelegator {
        final := FailWait(rec);
        return;
      }
      if read == ReadFailed {
        final := Repark(rec, WakeUp.Repark(rec.taskId));
        return;
      }
      final := JudgePeer(rec, input, read);
    }

    /** The peer has been read: what it is in decides, and, while it runs, whether its time is up. */
    method JudgePeer(rec: TaskRecord, input: string, read: PeerRead) returns (final: TaskRecord)
      requires Valid() && rec.taskId in logs && rec.AwaitsPeer() && phase == WakeUp.Waking(rec.awaitingTaskId)
      requires env.hasDelegator && read.Read?
      modifies this`logs, this`phase, store, engine, watchers
      ensures Valid() && engine.issued == old(engine.issued) && rec.taskId in logs
      ensures Rest(final, logs[rec.taskId]) == AfterReading(env, rec, old(logs[rec.taskId]), input, read.result)
      ensures logs == old(logs)[rec.taskId := logs[rec.taskId]] && final.taskId == rec.taskId
      ensures old(store.saves) <= store.saves
      ensures store.records == Saved(old(store.records), final)
      ensures TableAfter(env, TableFound(env, old(watchers.State()), rec, input, read), watchers.State(), final)
      ensures MayEnd(final)
    {
      var (o, ok) := OutcomeForPeer(rec.awaitingRole, read.result);
      assert Reparks(env, rec, input, read) <==> ok && o.parked && input != PEER_TIMEOUT;
      var text := o.output;
      if !ok && rec.awaitingApproval && read.result.state.Terminal() {
        text, ok := WithoutOutputText(env, read.result), true;
      }
      if !ok || (o.parked && input == PEER_TIMEOUT) {
        final := FailWait(rec);
        return;
      }
      if o.parked {
        final := Repark(rec.(awaitingApproval := o.peerApproval), WakeUp.Repark(rec.taskId));
        return;
      }
      final := Release(rec, text);
    }

    /** The peer has ended: its result becomes a turn and the rest of the parked turn runs. */
    method Release(rec: TaskRecord, text: string) returns (final: TaskRecord)
      requires Valid() && rec.taskId in logs && phase.Waking?
      modifies this`logs, this`phase, store, engine, watchers
      ensures Valid() && engine.issued == old(engine.issued) && rec.taskId in logs
      ensures Rest(final, logs[rec.taskId]) == Freed(env, rec, old(logs[rec.taskId]), text)
      ensures logs == old(logs)[rec.taskId := logs[rec.taskId]] && final.taskId == rec.taskId
      ensures old(store.saves) + [ClearPeer(rec.AddTurn(Message(Peer, text))).(state := Working)] <= store.saves
      ensures store.records == Saved(old(store.records), final)
      ensures TableAfter(env, Stopped(old(watchers.State()), rec.taskId), watchers.State(), final) && MayEnd(final)
    {
      StopFor(rec);
      var remaining := rec.remaining;
      var next := ClearPeer(rec.AddTurn(Message(Peer, text))).(state := Working);
      SaveAs(next, WakeUp.SaveElsewhere(rec.taskId));
      final := ContinueTurn(next, remaining);
      SaveTwice(old(store.records), next, final);
    }

    /** A message for an existing task: a verdict, a watcher's notice, or anything else. */
    method ExecuteResume(id: string, input: string, read: PeerRead) returns (final: Option<TaskRecord>)
      requires Valid() && id in logs
      modifies this`logs, this`phase, store, engine, watchers
      ensures Valid() && engine.issued == old(engine.issued) && id in logs
      ensures logs == old(logs)[id := logs[id]]
      ensures match Find(old(store.records), id)
              case None => final == None && store.records == old(store.records) && logs == old(logs)
              case Some(rec) =>
                && final.Some?
                && Rest(final.value, logs[id]) == Resume(env, Rest(rec, old(logs[id])), input, read)
                && store.records == Saved(old(store.records), final.value) && old(store.saves) <= store.saves
                && (!rec.AwaitsPeer() && !rec.AwaitsVerdict() ==>
                      old(store.saves) + [rec.(state := Working)] <= store.saves)
                && TableAfter(env, TableFound(env, old(watchers.State()), rec, input, read), watchers.State(),
                              final.value)
                && MayEnd(final.value)
    {
      FindIsMember(store.records, id);
      var found := store.Load(id);
      if found == None {
        return None;
      }
      var rec := found.value;
      phase := if rec.AwaitsPeer() then WakeUp.Waking(rec.awaitingTaskId) else WakeUp.Acting;
      var next;
      if rec.awaitingTaskId != "" {
        next := ResumeFromPeer(rec, input, read);
      } else if rec.pending.kind == "" {
        var again := rec.(state := Working);
        SaveAs(again, WakeUp.SaveElsewhere(rec.taskId));
        next := ExecuteWithPolicy(again);
        SaveTwice(old(store.records), again, next);
      } else {
        next := ExecuteVerdict(rec, input);
      }
      return Some(next);
    }

    /** Turns a new task into the follow-up of the one finished task its message references. */
    method SeedFrom(rec: TaskRecord, refs: seq<string>) returns (seeding: Seeding)
      ensures seeding == SeedFollowUp(env, store.records, rec, refs)
    {
      if |refs| != 1 {
        return Refused("supervisor: follow-up must reference exactly one task, got " + Decimal(|refs|));
      }
      var id := refs[0];
      var found := store.Load(id);
      if found == None {
        return Refused("supervisor: follow-up of unknown task " + env.quote(id));
      }
      var prev := found.value;
      if !prev.state.Terminal() {
        return Refused("supervisor: follow-up of task " + env.quote(id)
                       + ": task is not terminal (" + prev.state.Name() + ")");
      }
      var turns := Inheritance(env, prev.(taskId := id));
      seeding := Seeded(rec.(
                        turns := turns + [Message(User, rec.input)],
                        baseTurns := |turns|,
                        followUpOf := id,
                        contextId := if rec.contextId == "" then prev.contextId else rec.contextId));
    }

    method AdmitTask(rec: TaskRecord, refs: seq<string>) returns (seeding: Seeding)
      requires !rec.AwaitsPeer()
      ensures seeding == Admit(env, store.records, rec, refs)
      ensures seeding.Seeded? ==> seeding.rec.taskId == rec.taskId && !seeding.rec.AwaitsPeer()
    {
      seeding := Seeded(rec);
      if |refs| > 0 {
        seeding := SeedFrom(rec, refs);
      }
    }

    /** Fails a refused follow-up; persists any other new task as WORKING and runs it. */
    method Launch(rec: TaskRecord, seeding: Seeding) returns (final: TaskRecord)
      requires Valid() && rec.taskId !in logs
      requires seeding.Seeded? ==> seeding.rec.taskId == rec.taskId && !seeding.rec.AwaitsPeer()
      requires !rec.AwaitsPeer()
      modifies this`logs, this`phase, store, engine, watchers
      ensures Valid() && engine.issued == old(engine.issued) && rec.taskId in logs
      ensures Rest(final, logs[rec.taskId]) == Proceed(env, rec, seeding)
      ensures logs == old(logs)[rec.taskId := logs[rec.taskId]] && final.taskId == rec.taskId
      ensures seeding.Seeded? ==> old(store.saves) + [seeding.rec] <= store.saves
      ensures store.records == Saved(old(store.records), final)
      ensures TableAfter(env, old(watchers.State()), watchers.State(), final) && MayEnd(final)
    {
      if seeding.Refused? {
        final := Refuse(rec, seeding.text);
      } else {
        final := LaunchSeeded(seeding.rec);
      }
    }

    method Refuse(rec: TaskRecord, text: string) returns (final: TaskRecord)
      requires Valid() && rec.taskId !in logs && !rec.AwaitsPeer()
      modifies this`logs, this`phase, store
      ensures Valid() && final == rec.(output := text, state := Failed) && MayEnd(final)
      ensures logs == old(logs)[rec.taskId := []] && store.records == Saved(old(store.records), final)
    {
      logs := logs[rec.taskId := []];
      phase := WakeUp.Acting;
      final := MarkFailed(rec.(output := text));
    }

    method LaunchSeeded(rec: TaskRecord) returns (final: TaskRecord)
      requires Valid() && rec.taskId !in logs && !rec.AwaitsPeer()
      modifies this`logs, this`phase, store, engine, watchers
      ensures Valid() && engine.issued == old(engine.issued) && rec.taskId in logs
      ensures Rest(final, logs[rec.taskId]) == Machine.ExecuteWithPolicy(env, rec, [])
      ensures logs == old(logs)[rec.taskId := logs[rec.taskId]] && final.taskId == rec.taskId
      ensures old(store.saves) + [rec] <= store.saves
      ensures store.records == Saved(old(store.records), final)
      ensures TableAfter(env, old(watchers.State()), watchers.State(), final) && MayEnd(final)
    {
      ghost var files := store.records;
      Begin(rec);
      final := ExecuteWithPolicy(rec);
      assert logs == old(logs)[rec.taskId := logs[rec.taskId]];
      SaveTwice(files, rec, final);
    }

    /** A new task's history begins, and its record is persisted before anything runs. */
    method Begin(rec: TaskRecord)
      requires Valid() && !rec.AwaitsPeer()
      modifies this`logs, this`phase, store
      ensures Valid() && logs == old(logs)[rec.taskId := []] && phase == WakeUp.Acting
      ensures store.saves == old(store.saves) + [rec] && store.records == Saved(old(store.records), rec)
    {
      logs := logs[rec.taskId := []];
      phase := WakeUp.Acting;
      SaveAs(rec, WakeUp.SaveElsewhere(rec.taskId));
    }

    /** A new task; `refs` are the tasks its message references. */
    method Execute(id: string, input: string, contextId: string, refs: seq<string>) returns (final: TaskRecord)
      requires Valid() && id !in logs
      modifies this`logs, this`phase, store, engine, watchers
      ensures Valid() && engine.issued == old(engine.issued) && id in logs
      ensures Rest(final, logs[id]) == OpenTask(env, old(store.records), id, input, contextId, refs)
      ensures logs == old(logs)[id := logs[id]] && final.taskId == id
      ensures var seeding := Admit(env, old(store.records), NewRecord(id, input, contextId), refs);
              seeding.Seeded? ==> old(store.saves) + [seeding.rec] <= store.saves
      ensures store.records == Saved(old(store.records), final)
      ensures TableAfter(env, old(watchers.State()), watchers.State(), final) && MayEnd(final)
    {
      var rec := NewRecord(id, input, contextId);
      var seeding := AdmitTask(rec, refs);
      final := Launch(rec, seeding);
    }

    method Cancel(id: string)
      requires Valid()
      modifies store, watchers
      ensures Valid() && store.records == Without(old(store.records), id)
      ensures watchers.State() == Stopped(old(watchers.State()), id)
    {
      watchers.Stop(id);
      store.Delete(id);
    }

    /** Re-arms the peer wait of every parked task a restarted supervisor finds in its store. */
    method RecoverOpenTasks()
      requires Valid()
      modifies watchers
      ensures Valid()
      ensures watchers.State() ==
              if env.hasResumer then Rearmed(old(watchers.State()), store.records) else old(watchers.State())
    {
      if env.hasResumer {
        ghost var before := watchers.State();
        var records := store.records;
        for k := 0 to |records|
          invariant store.records == records
          invariant watchers.State() == Rearmed(before, records[..k])
        {
          var rec := records[k];
          assert Init(records[..k + 1]) == records[..k] && Last(records[..k + 1]) == rec;
          if rec.state == InputRequired && rec.awaitingTaskId != "" {
            var w, started := watchers.Arm(rec.taskId);
          }
        }
        assert records[..|records|] == records;
      }
    }
  }

  /** The table after re-arming the peer waits of these records, in order. */
  function Rearmed(table: Table, records: seq<TaskRecord>): Table {
    if records == [] then table
    else
      var t := Rearmed(table, Init(records));
      if ParkedOnPeer(Last(records)) then Armed(t, Last(records).taskId) else t
  }

  ghost predicate Listed(records: seq<TaskRecord>, id: string) {
    exists k | 0 <= k < |records| :: records[k].taskId == id && ParkedOnPeer(records[k])
  }

  /** Entries are numbered below `next` and not cancelled, and no watcher has two of them. */
  ghost predicate Tidy(t: Table) {
    && (forall w | w in t.cancelled :: w < t.next)
    && (forall id | id in t.entries :: t.entries[id] < t.next && t.entries[id] !in t.cancelled)
    && (forall a, b | a in t.entries && b in t.entries && a != b :: t.entries[a] != t.entries[b])
  }

  lemma ArmedStaysTidy(t: Table, id: string)
    requires Tidy(t)
    ensures Tidy(Armed(t, id))
  {
  }

  /**
   * Recovery leaves every task parked on a peer with a watcher of its own, fresh and not cancelled, and
   * the entry of any other task as it was, whatever the table already held; once stopped it arms nothing.
   */
  lemma {:induction false} RecoveryArmsEveryWait(table: Table, records: seq<TaskRecord>)
    requires Tidy(table)
    ensures var t := Rearmed(table, records);
            && Tidy(t) && t.stopped == table.stopped && t.next >= table.next
            && (table.stopped ==> t.entries == table.entries)
            && (!table.stopped ==> forall id ::
                  if Listed(records, id) then id in t.entries && t.entries[id] >= table.next
                  else (id in t.entries <==> id in table.entries)
                       && (id in table.entries ==> t.entries[id] == table.entries[id]))
    decreases |records|
  {
    if records != [] {
      SplitLast(records);
      var t := Rearmed(table, Init(records));
      RecoveryArmsEveryWait(table, Init(records));
      ArmedStaysTidy(t, Last(records).taskId);
      forall id
        ensures Listed(records, id) <==>
                Listed(Init(records), id) || (Last(records).taskId == id && ParkedOnPeer(Last(records)))
      {
        ListedNext(records, id);
      }
    }
  }

  lemma ListedNext(records: seq<TaskRecord>, id: string)
    requires records != []
    ensures Listed(records, id) <==>
            Listed(Init(records), id) || (Last(records).taskId == id && ParkedOnPeer(Last(records)))
  {
    if Listed(Init(records), id) {
      var k :| 0 <= k < |Init(records)| && Init(records)[k].taskId == id && ParkedOnPeer(Init(records)[k]);
      assert records[k] == Init(records)[k];
    }
    assert forall k | 0 <= k < |records| - 1 :: Init(records)[k] == records[k];
  }

  /** What the provider loop makes of a record. */
  function LoopResult(env: Env, rec: TaskRecord, log: History, midTurn: bool): Rest {
    if midTurn then AfterTurn(env, rec, log) else Machine.RunRounds(env, rec, log)
  }

  lemma WalkOnce(env: Env, rec: TaskRecord, log: History, intents: seq<Intent>, k: nat)
    requires k < |intents|
    ensures Machine.RunIntents(env, rec, log, intents[k..])
         == (var w := RunIntent(env, rec, log, intents[k], intents[k + 1..]);
             if w.halted then w else Machine.RunIntents(env, w.rec, w.log, intents[k + 1..]))
  {
    assert intents[k..][1..] == intents[k + 1..];
  }

  /** A provider call and the walk of what it asks for. */
  function RoundWalk(env: Env, rec: TaskRecord, log: History): Walk {
    var input := RoundInput(env, rec);
    var ans := env.provider(rec.taskId, log, input);
    var log1 := log + [Asked(input, ans)];
    if ans == RunFailed then Walk(rec.(state := Failed), log1, true)
    else Machine.RunIntents(env, TakeAnswer(rec, ans), log1, TurnIntents(ans))
  }

  /** One iteration: a round, then the end of its turn, with fewer rounds left if there is another. */
  lemma LoopOnce(env: Env, rec: TaskRecord, log: History)
    ensures LoopResult(env, rec, log, false)
         == (var w := RoundWalk(env, rec, log);
             if w.halted then Rest(w.rec, w.log) else LoopResult(env, w.rec, w.log, true))
    ensures var w := RoundWalk(env, rec, log);
            !w.halted && EndTurn(env, w.rec).Continue? ==>
              RoundsLeft(env, EndTurn(env, w.rec).rec) < RoundsLeft(env, rec)
  {
    var input := RoundInput(env, rec);
    var ans := env.provider(rec.taskId, log, input);
    if ans != RunFailed {
      RoundDecreases(env, rec, ans, log + [Asked(input, ans)]);
    }
  }

  // ------------------------------------------------------- reading a turn

  /** Separates the finish signal from the actions, keeping their order. */
  method SplitFinishTask(intents: seq<ActionIntent>)
    returns (actions: seq<ActionIntent>, answer: string, finished: bool)
    ensures actions == Actions(intents)
    ensures finished == FinishAnswer(intents).Some?
    ensures answer == if finished then FinishAnswer(intents).value else ""
  {
    actions, answer, finished := [], "", false;
    for k := 0 to |intents|
      invariant actions == Actions(intents[..k])
      invariant finished == FinishAnswer(intents[..k]).Some?
      invariant answer == if finished then FinishAnswer(intents[..k]).value else ""
    {
      assert Init(intents[..k + 1]) == intents[..k] && Last(intents[..k + 1]) == intents[k];
      if intents[k].kind != FINISH_TASK {
        actions := actions + [intents[k]];
      } else {
        if !finished {
          answer := StringArg(intents[k], "body");
        }
        finished := true;
      }
    }
    assert intents[..|intents|] == intents;
  }

  method AnyDelegation(actions: seq<ActionIntent>) returns (found: bool)
    ensures found == HasDelegation(actions)
  {
    for k := 0 to |actions|
      invariant !HasDelegation(actions[..k])
    {
      if actions[k].kind == DELEGATE_TASK {
        return true;
      }
    }
    return false;
  }

  /** The persisted form of a turn's actions, in the provider's order. */
  method PendingIntents(actions: seq<ActionIntent>) returns (pending: seq<Intent>)
    ensures pending == ToPending(actions)
  {
    pending := [];
    for k := 0 to |actions|
      invariant pending == ToPending(actions)[..k]
    {
      pending := pending + [Intent(actions[k].kind, StringArg(actions[k], "body"), StringArg(actions[k], "target"))];
    }
  }

  /** The rounds a task has spent itself. */
  method SpentRounds(rec: TaskRecord) returns (n: nat)
    ensures n == rec.Rounds()
  {
    if rec.baseTurns > |rec.turns| {
      return 0;
    }
    var own := rec.turns[rec.baseTurns..];
    n := 0;
    for k := 0 to |own|
      invariant n == AssistantTurns(own[..k])
    {
      assert Init(own[..k + 1]) == own[..k] && Last(own[..k + 1]) == own[k];
      if own[k].role == Assistant {
        n := n + 1;
      }
    }
    assert own[..|own|] == own;
  }
}
