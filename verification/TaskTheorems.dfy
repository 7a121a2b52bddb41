/** What every run of a task guarantees, whatever messages arrive and whenever the process restarts. */
module TaskTheorems {
  import opened Basics
  import opened BoundedContext
  import opened Tasks
  import opened RiskPolicy
  import opened Machine
  import opened Histories
  import opened Soundness
  import opened TurnReading

  /** A task that started from `rec` and went through `schedule`. */
  function Reached(env: Env, rec: TaskRecord, schedule: seq<Event>): Rest {
    Run(env, Start(env, rec), schedule)
  }

  /**
   * At rest a task is terminal or parked on exactly one of a verdict and a peer; a completed one
   * waits for nothing. So a message never finds a record with nothing to resume.
   */
  lemma RestStates(env: Env, rec: TaskRecord, schedule: seq<Event>)
    requires Faithful(env) && Fresh(rec)
    ensures var r := Reached(env, rec, schedule).rec;
            && (r.state.Terminal() || r.state == InputRequired)
            && (r.state == InputRequired ==> (r.AwaitsPeer() <==> !r.AwaitsVerdict()))
            && (r.state == Completed ==>
                  !r.AwaitsPeer() && !r.AwaitsVerdict() && r.remaining == [] && !r.finishRequested)
  {
    RunIsSound(env, rec, schedule);
  }

  /** What a turn is taken to ask for is what its answer lists as actions, in the answer's order. */
  ghost predicate AsAsked(log: History) {
    if LastAnswer(log).Some? && LastAnswer(log).value.Ran?
    then ReadInOrder(Emitted(log), LastAnswer(log).value.intents)
    else Emitted(log) == []
  }

  lemma EmittedIsRead(log: History)
    ensures AsAsked(log)
  {
    if LastAnswer(log).Some? && LastAnswer(log).value.Ran? {
      TurnIntentsAreRead(LastAnswer(log).value);
    }
  }

  lemma AlwaysAsAsked(log: History)
    ensures forall n | 0 <= n <= |log| :: AsAsked(log[..n])
  {
    forall n | 0 <= n <= |log|
      ensures AsAsked(log[..n])
    {
      EmittedIsRead(log[..n]);
    }
  }

  lemma PrefixAndRest(done: seq<Intent>, all: seq<Intent>) returns (rest: seq<Intent>)
    requires done <= all
    ensures all == done + rest && (rest != [] ==> done != all)
  {
    rest := all[|done|..];
  }

  /**
   * Nothing is lost and nothing runs twice. Earlier turns ran everything they asked for, in order and
   * once; of the current turn, what ran and what is queued come first, in order, and what is missing
   * behind them was dropped by a rejection or a failure. A completed task dropped nothing. At every moment
   * of the history the order is that of the provider's own list.
   */
  lemma IntentsAreConserved(env: Env, rec: TaskRecord, schedule: seq<Event>)
    requires Faithful(env) && Fresh(rec)
    ensures var s := Reached(env, rec, schedule);
            && EarlierTurnsDone(s.log)
            && (exists dropped ::
                  && Emitted(s.log) == Spent(s.log) + Queue(s.rec) + dropped
                  && (dropped != [] ==> s.rec.state == Rejected || s.rec.state == Failed))
            && (s.rec.state == Completed ==> Spent(s.log) == Emitted(s.log))
            && (forall n | 0 <= n <= |s.log| :: AsAsked(s.log[..n]))
  {
    RunIsSound(env, rec, schedule);
    AlwaysAsAsked(Reached(env, rec, schedule).log);
    var s := Reached(env, rec, schedule);
    var dropped := PrefixAndRest(Spent(s.log) + Queue(s.rec), Emitted(s.log));
    assert s.rec.state == Completed ==> Queue(s.rec) == [];
  }

  /**
   * No task completes with an unread peer result: it ends on the answer the provider gave last. Output and
   * finish flag are what that answer's own list says.
   */
  lemma CompletionReadsEveryPeer(env: Env, rec: TaskRecord, schedule: seq<Event>)
    requires Faithful(env) && Fresh(rec)
    ensures var s := Reached(env, rec, schedule);
            && Conversation(s.rec.OwnTurns())
            && (s.rec.finishRequested ==> !Delegates(Emitted(s.log)))
            && (s.rec.state == Completed ==>
                  && LastAnswer(s.log).Some? && LastAnswer(s.log).value.Ran?
                  && Last(s.rec.OwnTurns()) == Message(Assistant, LastAnswer(s.log).value.output)
                  && Says(LastAnswer(s.log).value, s.rec.output))
            && (s.rec.state == InputRequired ==>
                  && LastAnswer(s.log).Some? && LastAnswer(s.log).value.Ran?
                  && Says(LastAnswer(s.log).value, s.rec.output)
                  && var asked := LastAnswer(s.log).value.intents;
                     s.rec.finishRequested <==> HasKind(asked, "finish_task") && !HasKind(asked, "delegate_task"))
  {
    RunIsSound(env, rec, schedule);
    var last := LastAnswer(Reached(env, rec, schedule).log);
    if last.Some? && last.value.Ran? {
      AnswerIsRead(last.value);
    }
  }

  /** Provider calls never exceed the cap, over all parks and resumes; inherited rounds do not count. */
  lemma RoundsAreCapped(env: Env, rec: TaskRecord, schedule: seq<Event>)
    requires Faithful(env) && Fresh(rec)
    ensures Asks(Reached(env, rec, schedule).log) <= if env.maxRounds > 0 then env.maxRounds else 8
  {
    RunIsSound(env, rec, schedule);
  }

  /**
   * The delegation ledger lists exactly the peer tasks opened, in order; short of a failure it is as
   * long as the peer results heard plus the one awaited, and the awaited one stands last.
   */
  lemma DelegationsAreLedgered(env: Env, rec: TaskRecord, schedule: seq<Event>)
    requires Faithful(env) && Fresh(rec)
    ensures var s := Reached(env, rec, schedule);
            && s.rec.delegations == PeersOpened(env, s.log)
            && (s.rec.state != Failed ==>
                  |s.rec.delegations| == PeerTurns(s.rec.OwnTurns()) + if s.rec.AwaitsPeer() then 1 else 0)
            && (s.rec.state == InputRequired && s.rec.AwaitsPeer() ==>
                  && s.rec.delegations != []
                  && Last(s.rec.delegations) == Delegation(s.rec.awaitingRole, s.rec.awaitingTaskId))
  {
    RunIsSound(env, rec, schedule);
  }

  // ------------------------------------------------------------- growth only

  /** An execution only ever adds: to the transcript, to the ledger, to the history. */
  ghost predicate Grows(s: Rest, t: Rest) {
    && s.rec.turns <= t.rec.turns
    && s.rec.delegations <= t.rec.delegations
    && s.log <= t.log
    && Identity(t.rec) == Identity(s.rec)
  }

  /** The fields no execution changes. */
  function Identity(rec: TaskRecord): (string, string, string, string, nat) {
    (rec.taskId, rec.input, rec.contextId, rec.followUpOf, rec.baseTurns)
  }

  /** Growing without consuming an approval. */
  ghost predicate Quiet(s: Rest, t: Rest) {
    Grows(s, t) && Approvals(t.log) == Approvals(s.log)
  }

  lemma GrowsTransitive(s: Rest, t: Rest, u: Rest)
    requires Grows(s, t) && Grows(t, u)
    ensures Grows(s, u)
  {
  }

  lemma QuietTransitive(s: Rest, t: Rest, u: Rest)
    requires Quiet(s, t) && Quiet(t, u)
    ensures Quiet(s, u)
  {
    GrowsTransitive(s, t, u);
  }

  lemma NothingApproved(log: History, e: Effect)
    ensures !e.Approved? ==> Approvals(log + [e]) == Approvals(log)
  {
    LastOfAppend(log, e);
  }

  lemma ActGrows(env: Env, id: string, log: History, i: Intent)
    ensures var a := Act(env, id, log, i); log <= a.log && Approvals(a.log) == Approvals(log)
  {
    var log1 := log + [Released(i)];
    NothingApproved(log, Released(i));
    NothingApproved(log1, Delegated(i.target, i.body, env.delegate(id, log1, i.target, i.body)));
    NothingApproved(log1, Sent(i.body, env.gateway(id, log1, i.body)));
  }

  lemma PerformGrows(env: Env, rec: TaskRecord, log: History, i: Intent, rest: seq<Intent>)
    ensures var w := Perform(env, rec, log, i, rest); Quiet(Rest(rec, log), Rest(w.rec, w.log))
  {
    ActGrows(env, rec.taskId, log, i);
  }

  lemma IntentGrows(env: Env, rec: TaskRecord, log: History, i: Intent, rest: seq<Intent>)
    ensures var w := RunIntent(env, rec, log, i, rest); Quiet(Rest(rec, log), Rest(w.rec, w.log))
  {
    PerformGrows(env, rec, log, i, rest);
  }

  lemma {:induction false} IntentsGrow(env: Env, rec: TaskRecord, log: History, intents: seq<Intent>)
    ensures var w := RunIntents(env, rec, log, intents); Quiet(Rest(rec, log), Rest(w.rec, w.log))
    decreases |intents|
  {
    if intents != [] {
      IntentGrows(env, rec, log, intents[0], intents[1..]);
      var w := RunIntent(env, rec, log, intents[0], intents[1..]);
      if !w.halted {
        IntentsGrow(env, w.rec, w.log, intents[1..]);
        var v := RunIntents(env, w.rec, w.log, intents[1..]);
        QuietTransitive(Rest(rec, log), Rest(w.rec, w.log), Rest(v.rec, v.log));
      }
    }
  }

  /** Calling the provider and walking what it asks for. */
  lemma RoundGrows(env: Env, rec: TaskRecord, log: History, input: string, ans: ProviderAnswer)
    requires ans.Ran?
    ensures var w := RunIntents(env, TakeAnswer(rec, ans), log + [Asked(input, ans)], TurnIntents(ans));
            Quiet(Rest(rec, log), Rest(w.rec, w.log))
  {
    var l := log + [Asked(input, ans)];
    Extend(env, log, Asked(input, ans));
    IntentsGrow(env, TakeAnswer(rec, ans), l, TurnIntents(ans));
    var w := RunIntents(env, TakeAnswer(rec, ans), l, TurnIntents(ans));
    QuietTransitive(Rest(rec, log), Rest(TakeAnswer(rec, ans), l), Rest(w.rec, w.log));
  }

  lemma EndTurnGrows(env: Env, rec: TaskRecord, log: History)
    ensures Quiet(Rest(rec, log), Rest(EndTurn(env, rec).rec, log))
  {
  }

  lemma {:induction false} RoundsGrow(env: Env, rec: TaskRecord, log: History)
    ensures Quiet(Rest(rec, log), RunRounds(env, rec, log))
    decreases RoundsLeft(env, rec)
  {
    var input := RoundInput(env, rec);
    var ans := env.provider(rec.taskId, log, input);
    var l := log + [Asked(input, ans)];
    Extend(env, log, Asked(input, ans));
    if ans != RunFailed {
      RoundGrows(env, rec, log, input, ans);
      var w := RunIntents(env, TakeAnswer(rec, ans), l, TurnIntents(ans));
      if !w.halted {
        var r := EndTurn(env, w.rec).rec;
        EndTurnGrows(env, w.rec, w.log);
        QuietTransitive(Rest(rec, log), Rest(w.rec, w.log), Rest(r, w.log));
        if EndTurn(env, w.rec).Continue? {
          RoundDecreases(env, rec, ans, l);
          RoundsGrow(env, r, w.log);
          QuietTransitive(Rest(rec, log), Rest(r, w.log), RunRounds(env, r, w.log));
        }
      }
    }
  }

  lemma FinishTurnGrows(env: Env, rec: TaskRecord, log: History, intents: seq<Intent>)
    ensures Quiet(Rest(rec, log), FinishTurn(env, rec, log, intents))
  {
    IntentsGrow(env, rec, log, intents);
    var w := RunIntents(env, rec, log, intents);
    var r := EndTurn(env, w.rec).rec;
    if !w.halted && EndTurn(env, w.rec).Continue? {
      RoundsGrow(env, r, w.log);
      QuietTransitive(Rest(rec, log), Rest(r, w.log), RunRounds(env, r, w.log));
    }
  }

  /** The intent a message releases: the pending one, when the message reads exactly "approve". */
  function Releases(s: Rest, e: Event): seq<Intent> {
    if e.Arrives? && e.input == "approve" && s.rec.state == InputRequired
       && !s.rec.AwaitsPeer() && s.rec.AwaitsVerdict()
    then [s.rec.pending] else []
  }

  lemma VerdictGrows(env: Env, s: Rest, input: string)
    ensures var t := ResumeVerdict(env, s.rec, s.log, input);
            && Grows(s, t)
            && Approvals(t.log) == Approvals(s.log) + if input == APPROVE then [s.rec.pending] else []
  {
    if input == APPROVE {
      var rec := s.rec;
      var l := s.log + [Approved(rec.pending)];
      Extend(env, s.log, Approved(rec.pending));
      ApprovalPerforms(env, rec, s.log);
      PerformGrows(env, IdleForm(rec), l, rec.pending, rec.remaining);
      var w := Perform(env, IdleForm(rec), l, rec.pending, rec.remaining);
      assert Grows(s, Rest(w.rec, w.log));
      if !w.halted {
        FinishTurnGrows(env, w.rec, w.log, rec.remaining);
        GrowsTransitive(s, Rest(w.rec, w.log), FinishTurn(env, w.rec, w.log, rec.remaining));
      }
    }
  }

  lemma PeerMessageGrows(env: Env, s: Rest, input: string, read: PeerRead)
    ensures Quiet(s, ResumeFromPeer(env, s.rec, s.log, input, read))
  {
    if read.Read? {
      var (o, ok) := OutcomeForPeer(s.rec.awaitingRole, read.result);
      var text := if ok then o.output else WithoutOutputText(env, read.result);
      var r := ClearPeer(s.rec.AddTurn(Message(Peer, text))).(state := Working);
      FinishTurnGrows(env, r, s.log, s.rec.remaining);
      QuietTransitive(s, Rest(r, s.log), FinishTurn(env, r, s.log, s.rec.remaining));
    }
  }

  lemma StepGrows(env: Env, s: Rest, e: Event)
    requires AtRest(s.rec)
    ensures var t := Step(env, s, e); Grows(s, t) && Approvals(t.log) == Approvals(s.log) + Releases(s, e)
  {
    if !s.rec.state.Terminal() && e.Arrives? {
      if s.rec.AwaitsPeer() {
        PeerMessageGrows(env, s, e.input, e.read);
      } else {
        VerdictGrows(env, s, e.input);
      }
    }
  }

  // -------------------------------------------------------------- approvals

  /** The intents released by the messages of a schedule, in order. */
  function ReleasedBy(env: Env, s: Rest, schedule: seq<Event>): seq<Intent> {
    if schedule == [] then []
    else ReleasedBy(env, s, Init(schedule)) + Releases(Run(env, s, Init(schedule)), Last(schedule))
  }

  /**
   * Nothing risky runs unapproved, over whole runs: the risky intents carried out are, in order, the
   * ones that were pending when a message reading exactly "approve" arrived, one per such message.
   * Every effect directly follows the token spent on it, and nothing the policy denies is carried out.
   */
  lemma {:induction false} OnlyApprovedRisksRun(env: Env, rec: TaskRecord, schedule: seq<Event>)
    requires Faithful(env) && Fresh(rec)
    ensures var s := Reached(env, rec, schedule);
            && RiskySpent(env, s.log) == ReleasedBy(env, Start(env, rec), schedule)
            && Lawful(env, s.log)
    decreases |schedule|
  {
    RunIsSound(env, rec, schedule);
    if schedule == [] {
      NoApprovalAtStart(env, rec);
    } else {
      RunIsSound(env, rec, Init(schedule));
      OnlyApprovedRisksRun(env, rec, Init(schedule));
      StepGrows(env, Reached(env, rec, Init(schedule)), Last(schedule));
    }
  }

  lemma NoApprovalAtStart(env: Env, rec: TaskRecord)
    ensures Approvals(Start(env, rec).log) == []
  {
    RoundsGrow(env, if rec.turns == [] then rec.AddTurn(Message(User, rec.input)) else rec, []);
  }

  /** A second risky intent parks again: one message carries out exactly the risky intent it releases. */
  lemma OneApprovalOneRisk(env: Env, rec: TaskRecord, schedule: seq<Event>, e: Event)
    requires Faithful(env) && Fresh(rec)
    ensures var s := Reached(env, rec, schedule);
            RiskySpent(env, Step(env, s, e).log) == RiskySpent(env, s.log) + Releases(s, e)
  {
    RunIsSound(env, rec, schedule);
    var s := Reached(env, rec, schedule);
    StepGrows(env, s, e);
    StepKeeps(env, s, e);
  }

  // ------------------------------------------------- where the assumptions bite

  /** With an empty kind escalated, even an approval asks the provider again and releases nothing. */
  lemma EmptyKindForgetsTheIntent(env: Env, rec: TaskRecord, log: History, i: Intent, rest: seq<Intent>, read: PeerRead)
    requires Idle(rec) && i.kind == "" && Classify(env, "") == Escalate
    ensures var w := RunIntent(env, rec, log, i, rest);
            && w.rec.state == InputRequired
            && Step(env, Rest(w.rec, w.log), Arrives(APPROVE, read))
               == ExecuteWithPolicy(env, w.rec.(state := Working), log)
            && |Step(env, Rest(w.rec, w.log), Arrives(APPROVE, read)).log| > |log|
            && Step(env, Rest(w.rec, w.log), Arrives(APPROVE, read)).log[|log|].Asked?
  {
    var w := RunIntent(env, rec, log, i, rest);
    var r := w.rec.(state := Working);
    var r1 := if r.turns == [] then r.AddTurn(Message(User, r.input)) else r;
    FirstEffectAsks(env, r1, log);
  }

  lemma FirstEffectAsks(env: Env, rec: TaskRecord, log: History)
    ensures var l := RunRounds(env, rec, log).log;
            |l| > |log| && l[|log|].Asked? && l[|log|].input == RoundInput(env, rec)
  {
    var input := RoundInput(env, rec);
    var ans := env.provider(rec.taskId, log, input);
    var l := log + [Asked(input, ans)];
    if ans != RunFailed {
      IntentsGrow(env, TakeAnswer(rec, ans), l, TurnIntents(ans));
      var w := RunIntents(env, TakeAnswer(rec, ans), l, TurnIntents(ans));
      assert l <= w.log;
      var r := EndTurn(env, w.rec).rec;
      if !w.halted && EndTurn(env, w.rec).Continue? {
        RoundsGrow(env, r, w.log);
        assert l <= RunRounds(env, r, w.log).log;
      }
      assert RunRounds(env, rec, log).log[|log|] == l[|log|];
    }
  }

  /** Parked, and waiting for nothing the record could say. */
  predicate Lost(rec: TaskRecord) {
    rec.state == InputRequired && !rec.AwaitsPeer() && !rec.AwaitsVerdict()
  }

  /** A provider that asks for one intent of this kind, every time. */
  function AsksFor(kind: string): (string, History, string) -> ProviderAnswer {
    (id, log, input) => Ran("", [ActionIntent(kind, map["target" := Text("peer")])])
  }

  /** A delegator that breaks its contract: the task it has opened has no id. */
  function Unnamed(): (string, History, string, string) -> DelegateAnswer {
    (id, log, role, body) => Opened(DelegationResult("", Working, ""))
  }

  function Arrivals(schedule: seq<Event>): nat {
    if schedule == [] then 0 else Arrivals(Init(schedule)) + if Last(schedule).Arrives? then 1 else 0
  }

  /** Every execution from a record that waits for nothing asks once and loses track. */
  ghost predicate LosesTrack(env: Env) {
    forall rec: TaskRecord, log: History | !rec.AwaitsPeer() && !rec.AwaitsVerdict() ::
      var t := RunRounds(env, rec, log);
      Lost(t.rec) && Asks(t.log) == Asks(log) + 1
  }

  lemma OneIntentAsked(kind: string)
    requires kind != FINISH_TASK
    ensures TurnIntents(Ran("", [ActionIntent(kind, map["target" := Text("peer")])])) == [Intent(kind, "", "peer")]
  {
    var i := ActionIntent(kind, map["target" := Text("peer")]);
    assert Init([i]) == [] && Last([i]) == i;
    assert Actions([i]) == [i];
  }

  /** A round whose single intent halts the walk is the whole execution. */
  lemma OneIntentRound(env: Env, rec: TaskRecord, log: History, kind: string)
    requires kind != FINISH_TASK && env.provider == AsksFor(kind)
    ensures var ans := Ran("", [ActionIntent(kind, map["target" := Text("peer")])]);
            var l := log + [Asked(RoundInput(env, rec), ans)];
            var w := RunIntent(env, TakeAnswer(rec, ans), l, Intent(kind, "", "peer"), []);
            && Asks(l) == Asks(log) + 1
            && (w.halted ==> RunRounds(env, rec, log) == Rest(w.rec, w.log))
  {
    OneIntentAsked(kind);
    var ans := Ran("", [ActionIntent(kind, map["target" := Text("peer")])]);
    Extend(env, log, Asked(RoundInput(env, rec), ans));
    assert env.provider(rec.taskId, log, RoundInput(env, rec)) == ans;
    assert [Intent(kind, "", "peer")][1..] == [];
  }

  lemma EscalatedEmptyKindLosesTrack(env: Env)
    requires Classify(env, "") == Escalate && env.provider == AsksFor("")
    ensures LosesTrack(env)
  {
    forall rec: TaskRecord, log: History | !rec.AwaitsPeer() && !rec.AwaitsVerdict()
      ensures var t := RunRounds(env, rec, log); Lost(t.rec) && Asks(t.log) == Asks(log) + 1
    {
      OneIntentRound(env, rec, log, "");
    }
  }

  lemma UnnamedPeerLosesTrack(env: Env)
    requires env.hasDelegator && env.hasResumer && Classify(env, DELEGATE_TASK) == Permit
    requires env.provider == AsksFor(DELEGATE_TASK) && env.delegate == Unnamed()
    ensures LosesTrack(env)
  {
    forall rec: TaskRecord, log: History | !rec.AwaitsPeer() && !rec.AwaitsVerdict()
      ensures var t := RunRounds(env, rec, log); Lost(t.rec) && Asks(t.log) == Asks(log) + 1
    {
      OneIntentRound(env, rec, log, DELEGATE_TASK);
      var ans := Ran("", [ActionIntent(DELEGATE_TASK, map["target" := Text("peer")])]);
      UnnamedPark(env, TakeAnswer(rec, ans), log + [Asked(RoundInput(env, rec), ans)]);
    }
  }

  lemma UnnamedPark(env: Env, rec: TaskRecord, log: History)
    requires env.hasDelegator && env.hasResumer && Classify(env, DELEGATE_TASK) == Permit && env.delegate == Unnamed()
    requires !rec.AwaitsVerdict()
    ensures var w := RunIntent(env, rec, log, Intent(DELEGATE_TASK, "", "peer"), []);
            w.halted && Lost(w.rec) && Asks(w.log) == Asks(log)
  {
    var i := Intent(DELEGATE_TASK, "", "peer");
    var log1 := log + [Released(i)];
    assert env.delegate(rec.taskId, log1, "peer", "") == Opened(DelegationResult("", Working, ""));
    Extend(env, log, Released(i));
    Extend(env, log1, Delegated("peer", "", Opened(DelegationResult("", Working, ""))));
  }

  lemma LostByExecuting(env: Env, rec: TaskRecord, log: History)
    requires LosesTrack(env) && !rec.AwaitsPeer() && !rec.AwaitsVerdict()
    ensures var t := ExecuteWithPolicy(env, rec, log); Lost(t.rec) && Asks(t.log) == Asks(log) + 1
  {
    var first := if rec.turns == [] then rec.AddTurn(Message(User, rec.input)) else rec;
    assert ExecuteWithPolicy(env, rec, log) == RunRounds(env, first, log);
  }

  lemma LostOnceMore(env: Env, s: Rest, e: Event)
    requires LosesTrack(env) && Lost(s.rec)
    ensures var t := Step(env, s, e); Lost(t.rec) && Asks(t.log) == Asks(s.log) + if e.Arrives? then 1 else 0
  {
    if e.Arrives? {
      LostByExecuting(env, s.rec.(state := Working), s.log);
    }
  }

  lemma {:induction false} LostForGood(env: Env, rec: TaskRecord, schedule: seq<Event>)
    requires LosesTrack(env) && Fresh(rec)
    ensures var s := Reached(env, rec, schedule); Lost(s.rec) && Asks(s.log) == 1 + Arrivals(schedule)
    decreases |schedule|
  {
    if schedule == [] {
      LostByExecuting(env, rec, []);
    } else {
      LostForGood(env, rec, Init(schedule));
      LostOnceMore(env, Reached(env, rec, Init(schedule)), Last(schedule));
    }
  }

  /**
   * What goes wrong otherwise. If the policy escalates the empty kind, or delegation is permitted and the
   * delegator names no task, there are providers whose task is never at rest properly: over the whole run
   * the record says neither whom nor what it waits for, and every message, an approval too, asks the
   * provider once more, without any cap.
   */
  lemma UnfaithfulTasksAreLost(env: Env, rec: TaskRecord, schedule: seq<Event>)
    requires Fresh(rec)
    ensures Classify(env, "") == Escalate ==>
              var s := Reached(env.(provider := AsksFor("")), rec, schedule);
              Lost(s.rec) && Asks(s.log) == 1 + Arrivals(schedule)
    ensures env.hasDelegator && env.hasResumer && Classify(env, DELEGATE_TASK) == Permit ==>
              var s := Reached(env.(provider := AsksFor(DELEGATE_TASK), delegate := Unnamed()), rec, schedule);
              Lost(s.rec) && Asks(s.log) == 1 + Arrivals(schedule)
  {
    if Classify(env, "") == Escalate {
      var e := env.(provider := AsksFor(""));
      EscalatedEmptyKindLosesTrack(e);
      LostForGood(e, rec, schedule);
    }
    if env.hasDelegator && env.hasResumer && Classify(env, DELEGATE_TASK) == Permit {
      var e := env.(provider := AsksFor(DELEGATE_TASK), delegate := Unnamed());
      UnnamedPeerLosesTrack(e);
      LostForGood(e, rec, schedule);
    }
  }

  /**
   * Under a delegator that names its tasks, every task rests properly with every provider exactly when the
   * policy does not escalate the empty kind.
   */
  lemma RestStatesIff(env: Env)
    requires NamesPeers(env)
    ensures Classify(env, "") != Escalate <==>
            forall provider, rec, schedule | Fresh(rec) ::
              AtRest(Reached(env.(provider := provider), rec, schedule).rec)
  {
    if Classify(env, "") != Escalate {
      forall provider, rec, schedule | Fresh(rec)
        ensures AtRest(Reached(env.(provider := provider), rec, schedule).rec)
      {
        var e := env.(provider := provider);
        assert forall id, log, role, body :: e.delegate(id, log, role, body) == env.delegate(id, log, role, body);
        RunIsSound(e, rec, schedule);
      }
    } else {
      var rec := TaskRecord("t", Working, "", NO_INTENT, [], [], "", "", false, false, [], "", "", "", 0);
      UnfaithfulTasksAreLost(env, rec, []);
      assert Fresh(rec) && !AtRest(Reached(env.(provider := AsksFor("")), rec, []).rec);
    }
  }
}
