/**
 * What a finished task's record still holds. A rejected or failed verdict leaves the intent it was about,
 * and everything queued behind it, on the record; nothing else does.
 */
module LeftBehind {
  import opened Basics
  import opened BoundedContext
  import opened Tasks
  import opened RiskPolicy
  import opened Machine
  import opened Soundness
  import opened TaskTheorems

  // ------------------------------------------------ executions end cleared

  lemma IntentEndsIdle(env: Env, rec: TaskRecord, log: History, i: Intent, rest: seq<Intent>)
    requires Idle(rec)
    ensures var w := RunIntent(env, rec, log, i, rest);
            !w.halted || w.rec.state.Terminal() ==> Idle(w.rec)
  {
  }

  lemma {:induction false} WalkEndsIdle(env: Env, rec: TaskRecord, log: History, intents: seq<Intent>)
    requires Idle(rec)
    ensures var w := RunIntents(env, rec, log, intents);
            !w.halted || w.rec.state.Terminal() ==> Idle(w.rec)
    decreases |intents|
  {
    if intents != [] {
      IntentEndsIdle(env, rec, log, intents[0], intents[1..]);
      var w := RunIntent(env, rec, log, intents[0], intents[1..]);
      if !w.halted {
        WalkEndsIdle(env, w.rec, w.log, intents[1..]);
      }
    }
  }

  lemma EndTurnStaysIdle(env: Env, rec: TaskRecord)
    requires Idle(rec)
    ensures Idle(EndTurn(env, rec).rec)
  {
  }

  lemma {:induction false} RoundsEndIdle(env: Env, rec: TaskRecord, log: History)
    requires Idle(rec)
    ensures var t := RunRounds(env, rec, log); t.rec.state.Terminal() ==> Idle(t.rec)
    decreases RoundsLeft(env, rec)
  {
    var input := RoundInput(env, rec);
    var ans := env.provider(rec.taskId, log, input);
    var l := log + [Asked(input, ans)];
    if ans != RunFailed {
      WalkEndsIdle(env, TakeAnswer(rec, ans), l, TurnIntents(ans));
      var w := RunIntents(env, TakeAnswer(rec, ans), l, TurnIntents(ans));
      if !w.halted {
        EndTurnStaysIdle(env, w.rec);
        if EndTurn(env, w.rec).Continue? {
          RoundDecreases(env, rec, ans, l);
          RoundsEndIdle(env, EndTurn(env, w.rec).rec, w.log);
        }
      }
    }
  }

  lemma TurnEndsIdle(env: Env, rec: TaskRecord, log: History, intents: seq<Intent>)
    requires Idle(rec)
    ensures var t := FinishTurn(env, rec, log, intents); t.rec.state.Terminal() ==> Idle(t.rec)
  {
    WalkEndsIdle(env, rec, log, intents);
    var w := RunIntents(env, rec, log, intents);
    if !w.halted {
      EndTurnStaysIdle(env, w.rec);
      if EndTurn(env, w.rec).Continue? {
        RoundsEndIdle(env, EndTurn(env, w.rec).rec, w.log);
      }
    }
  }

  // ------------------------------------------------------------ one message

  /** The message is a verdict that does not go through: a rejection, or an approval whose action fails. */
  predicate Abandons(env: Env, s: Rest, e: Event) {
    && e.Arrives? && s.rec.state == InputRequired && !s.rec.AwaitsPeer() && s.rec.AwaitsVerdict()
    && (e.input != APPROVE || !Act(env, s.rec.taskId, s.log + [Approved(s.rec.pending)], s.rec.pending).ok)
  }

  lemma AbandonedStays(env: Env, s: Rest, e: Event)
    requires Abandons(env, s, e)
    ensures var t := Step(env, s, e).rec;
            && t.state == (if e.input == APPROVE then Failed else Rejected)
            && t.pending == s.rec.pending && t.remaining == s.rec.remaining
  {
  }

  lemma CarriedOutEndsIdle(env: Env, s: Rest)
    requires s.rec.state == InputRequired && !s.rec.AwaitsPeer()
    requires Act(env, s.rec.taskId, s.log + [Approved(s.rec.pending)], s.rec.pending).ok
    ensures var t := ResumeVerdict(env, s.rec, s.log, APPROVE); t.rec.state.Terminal() ==> Idle(t.rec)
  {
    var a := Act(env, s.rec.taskId, s.log + [Approved(s.rec.pending)], s.rec.pending);
    var next := TakeOutcome(RecordDelegation(s.rec, a.outcome), a.outcome).(pending := NO_INTENT, remaining := []);
    TurnEndsIdle(env, next, a.log, s.rec.remaining);
  }

  lemma PeerMessageEndsIdle(env: Env, s: Rest, input: string, read: PeerRead)
    requires Sound(env, s) && s.rec.state == InputRequired && s.rec.AwaitsPeer()
    ensures var t := ResumeFromPeer(env, s.rec, s.log, input, read); t.rec.state.Terminal() ==> Idle(t.rec)
  {
    var rec, log := s.rec, s.log;
    var next := ResumeFromPeer(env, rec, log, input, read);
    PeerMessageEnds(env, rec, log, input, read);
    if next == Rest(ClearPeer(rec).(state := Failed), log) {
    } else if approval :| next == Rest(rec.(awaitingApproval := approval), log) {
    } else {
      var m: Message :| m.role == Peer
                        && next == FinishTurn(env, ClearPeer(rec.AddTurn(m)).(state := Working), log, rec.remaining);
      TurnEndsIdle(env, ClearPeer(rec.AddTurn(m)).(state := Working), log, rec.remaining);
    }
  }

  /**
   * A message that finishes a parked task leaves the pending intent and the queue on the record exactly
   * when it is a verdict that does not go through; any other end clears them.
   */
  lemma LeavesBehindIff(env: Env, s: Rest, e: Event)
    requires Sound(env, s) && s.rec.state == InputRequired && e.Arrives?
    ensures var t := Step(env, s, e).rec;
            && (t.state.Terminal() && t.AwaitsVerdict() <==> Abandons(env, s, e))
            && (Abandons(env, s, e) ==> t.pending == s.rec.pending && t.remaining == s.rec.remaining)
            && (t.state.Terminal() && !Abandons(env, s, e) ==> Idle(t))
  {
    if Abandons(env, s, e) {
      AbandonedStays(env, s, e);
    } else if s.rec.AwaitsPeer() {
      PeerMessageEndsIdle(env, s, e.input, e.read);
    } else {
      CarriedOutEndsIdle(env, s);
    }
  }

  // ------------------------------------------------------------- whole runs

  /** Some message of the schedule was a verdict that did not go through. */
  predicate Abandoned(env: Env, rec: TaskRecord, schedule: seq<Event>) {
    schedule != []
    && (Abandoned(env, rec, Init(schedule)) || Abandons(env, Reached(env, rec, Init(schedule)), Last(schedule)))
  }

  /**
   * Over whole runs: a finished record still holds a pending intent exactly when some verdict did not go
   * through, and a record finished in any other way holds neither an intent, nor a queue, nor a peer.
   */
  lemma {:induction false} FinishedHoldsIntentIff(env: Env, rec: TaskRecord, schedule: seq<Event>)
    requires Faithful(env) && Fresh(rec)
    ensures var r := Reached(env, rec, schedule).rec;
            && (r.state.Terminal() && r.AwaitsVerdict() <==> Abandoned(env, rec, schedule))
            && (r.state.Terminal() && !Abandoned(env, rec, schedule) ==> Idle(r))
    decreases |schedule|
  {
    if schedule == [] {
      StartEndsIdle(env, rec);
    } else {
      FinishedHoldsIntentIff(env, rec, Init(schedule));
      RunIsSound(env, rec, Init(schedule));
      var s, e := Reached(env, rec, Init(schedule)), Last(schedule);
      if s.rec.state == InputRequired && e.Arrives? {
        LeavesBehindIff(env, s, e);
      }
    }
  }

  lemma StartEndsIdle(env: Env, rec: TaskRecord)
    requires Fresh(rec)
    ensures var t := Start(env, rec); t.rec.state.Terminal() ==> Idle(t.rec)
  {
    RoundsEndIdle(env, if rec.turns == [] then rec.AddTurn(Message(User, rec.input)) else rec, []);
  }

  // ---------------------------------------------------------- concrete runs

  const RISKY := Intent("send", "", "")

  /** One risky kind, a provider that asks for it twice at once, and no gateway. */
  function Firm(): Env {
    Env("agent", map["send" := Policy("risky", ["agent"])], 0, 0, 0, false, false, false, s => s,
        (id, log, input) => Ran("", [ActionIntent("send", map[]), ActionIntent("send", map[])]),
        (id, log, body) => false,
        (id, log, role, body) => DelegateFailed)
  }

  function NewTask(): TaskRecord {
    TaskRecord("t", Working, "", NO_INTENT, [], [], "", "", false, false, [], "", "", "", 0)
  }

  lemma TwoIntentsAsked()
    ensures TurnIntents(Ran("", [ActionIntent("send", map[]), ActionIntent("send", map[])])) == [RISKY, RISKY]
  {
    var i := ActionIntent("send", map[]);
    assert Init([i, i]) == [i] && Init([i]) == [];
    assert Actions([i]) == [i] && Actions([i, i]) == [i, i];
  }

  /** The task escalates its first intent and keeps the second behind it. */
  lemma FirmEscalates()
    ensures Fresh(NewTask()) && Faithful(Firm())
    ensures var r := Start(Firm(), NewTask()).rec;
            r.state == InputRequired && r.pending == RISKY && r.remaining == [RISKY] && !r.AwaitsPeer()
  {
    var env, rec := Firm(), NewTask();
    var first := rec.AddTurn(Message(User, rec.input));
    var ans := env.provider(first.taskId, [], RoundInput(env, first));
    assert ans == Ran("", [ActionIntent("send", map[]), ActionIntent("send", map[])]);
    TwoIntentsAsked();
    assert [RISKY, RISKY][1..] == [RISKY];
    assert Classify(env, "send") == Escalate;
    assert Start(env, rec) == RunRounds(env, first, []);
  }

  lemma OneMessage(env: Env, rec: TaskRecord, e: Event)
    ensures Reached(env, rec, [e]) == Step(env, Start(env, rec), e)
  {
    assert Init([e]) == [] && Last([e]) == e;
    assert Run(env, Start(env, rec), []) == Start(env, rec);
  }

  lemma RejectionLeavesIntents()
    ensures var r := Reached(Firm(), NewTask(), [Arrives("reject", ReadFailed)]).rec;
            r.state == Rejected && r.pending == RISKY && r.remaining == [RISKY]
  {
    FirmEscalates();
    OneMessage(Firm(), NewTask(), Arrives("reject", ReadFailed));
    assert "reject"[0] != APPROVE[0];
    AbandonedStays(Firm(), Start(Firm(), NewTask()), Arrives("reject", ReadFailed));
  }

  lemma FailedApprovalLeavesIntents()
    ensures var r := Reached(Firm(), NewTask(), [Arrives(APPROVE, ReadFailed)]).rec;
            r.state == Failed && r.pending == RISKY && r.remaining == [RISKY]
  {
    FirmEscalates();
    OneMessage(Firm(), NewTask(), Arrives(APPROVE, ReadFailed));
    AbandonedStays(Firm(), Start(Firm(), NewTask()), Arrives(APPROVE, ReadFailed));
  }
}
