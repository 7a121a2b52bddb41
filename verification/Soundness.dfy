/** The invariants every reachable rest point of a task satisfies. */
module Soundness {
  import opened Basics
  import opened BoundedContext
  import opened Tasks
  import opened RiskPolicy
  import opened Machine
  import opened Histories

  /**
   * What is assumed of the surroundings: the Delegator contract gives every task it opens an id, and
   * no risk policy escalates the empty action kind (the record could not say that one is pending).
   */
  ghost predicate Faithful(env: Env) {
    Classify(env, "") != Escalate && NamesPeers(env)
  }

  /** Nothing is awaited. */
  predicate Idle(rec: TaskRecord) {
    rec.pending == NO_INTENT && rec.awaitingTaskId == "" && rec.remaining == []
  }

  /** Terminal, or parked on exactly one of a human verdict and a peer. */
  predicate AtRest(rec: TaskRecord) {
    rec.state.Terminal() || (rec.state == InputRequired && rec.AwaitsPeer() != rec.AwaitsVerdict())
  }

  /** What a parked record still has to carry out, in order. */
  function Queue(rec: TaskRecord): seq<Intent> {
    if rec.state != InputRequired then []
    else (if rec.AwaitsVerdict() then [rec.pending] else []) + rec.remaining
  }

  // ---------------------------------------------------------- the transcript

  /** user (assistant peer*)* */
  predicate Conversation(own: seq<Message>) {
    && own != []
    && own[0].role == User
    && (forall k | 1 <= k < |own| :: own[k].role == Assistant || own[k].role == Peer)
    && (|own| > 1 ==> own[1].role == Assistant)
  }

  /** What the provider said last. */
  function LastSaid(own: seq<Message>): Option<string> {
    if own == [] then None
    else if Last(own).role == Assistant then Some(Last(own).content)
    else LastSaid(Init(own))
  }

  lemma ConversationGrows(own: seq<Message>, m: Message)
    requires Conversation(own) && (m.role == Assistant || (m.role == Peer && |own| > 1))
    ensures Conversation(own + [m])
    ensures LastSaid(own + [m]) == if m.role == Assistant then Some(m.content) else LastSaid(own)
  {
    LastOfAppend(own, m);
  }

  predicate Delegates(intents: seq<Intent>) {
    exists k | 0 <= k < |intents| :: intents[k].kind == DELEGATE_TASK
  }

  lemma FinishNeverDelegates(ans: ProviderAnswer)
    requires ans.Ran? && TurnFinish(ans).Some?
    ensures !Delegates(TurnIntents(ans))
  {
    if k :| 0 <= k < |TurnIntents(ans)| && TurnIntents(ans)[k].kind == DELEGATE_TASK {
      assert Actions(ans.intents)[k].kind == DELEGATE_TASK;
    }
  }

  /** The current turn on the record agrees with the provider's last answer. */
  ghost predicate Current(rec: TaskRecord, log: History) {
    && LastAnswer(log).Some? && LastAnswer(log).value.Ran?
    && var ans := LastAnswer(log).value;
    && rec.finishRequested == TurnFinish(ans).Some?
    && rec.output == TurnOutput(ans)
    && LastSaid(rec.OwnTurns()) == Some(ans.output)
    && |rec.OwnTurns()| > 1
    && (Last(rec.OwnTurns()).role == Peer ==> Delegates(TurnIntents(ans)))
  }

  /** A finish flag on the record belongs to a turn that delegates nothing. */
  predicate FinishFits(rec: TaskRecord, log: History) {
    rec.finishRequested ==> !Delegates(Emitted(log))
  }

  lemma CurrentFits(rec: TaskRecord, log: History)
    requires Current(rec, log)
    ensures FinishFits(rec, log)
  {
    if rec.finishRequested {
      FinishNeverDelegates(LastAnswer(log).value);
    }
  }

  // ------------------------------------------------------------ the invariants

  /** Holds at every moment of an execution between two intents. */
  ghost predicate Common(env: Env, rec: TaskRecord, log: History) {
    && rec.baseTurns <= |rec.turns|
    && Conversation(rec.OwnTurns())
    && Lawful(env, log)
    && RiskySpent(env, log) == Approvals(log)
    && EarlierTurnsDone(log)
    && Asks(log) <= env.MaxRounds()
    && rec.delegations == PeersOpened(env, log)
  }

  /** Between two intents of a turn, with `queue` still to run. */
  ghost predicate MidTurn(env: Env, rec: TaskRecord, log: History, queue: seq<Intent>) {
    && Common(env, rec, log)
    && Idle(rec)
    && Current(rec, log)
    && Spent(log) + queue == Emitted(log)
    && Asks(log) == rec.Rounds()
    && |rec.delegations| == PeerTurns(rec.OwnTurns())
  }

  /** At a rest point. */
  ghost predicate Sound(env: Env, s: Rest) {
    var rec, log := s.rec, s.log;
    && Common(env, rec, log)
    && AtRest(rec)
    && rec.state != Canceled
    && FinishFits(rec, log)
    && Spent(log) + Queue(rec) <= Emitted(log)
    && (rec.state == InputRequired ==> Waiting(env, rec, log))
    && (rec.state == Completed ==> Done(rec, log))
    && (rec.state != Failed ==>
          && Asks(log) == rec.Rounds()
          && |rec.delegations| == PeerTurns(rec.OwnTurns()) + if rec.AwaitsPeer() then 1 else 0)
  }

  /** A parked task has lost nothing, and names the peer it waits for last among its delegations. */
  ghost predicate Waiting(env: Env, rec: TaskRecord, log: History) {
    && Current(rec, log)
    && Spent(log) + Queue(rec) == Emitted(log)
    && (rec.AwaitsVerdict() ==> Classify(env, rec.pending.kind) == Escalate)
    && (rec.AwaitsPeer() ==>
          && rec.pending == NO_INTENT
          && rec.delegations != []
          && Last(rec.delegations) == Delegation(rec.awaitingRole, rec.awaitingTaskId)
          && Delegates(Emitted(log)))
  }

  /** A completed task has run everything it was asked and ends on the provider's own words. */
  ghost predicate Done(rec: TaskRecord, log: History) {
    && Idle(rec) && !rec.finishRequested
    && Spent(log) == Emitted(log)
    && LastAnswer(log).Some? && LastAnswer(log).value.Ran?
    && rec.OwnTurns() != [] && Last(rec.OwnTurns()) == Message(Assistant, LastAnswer(log).value.output)
    && rec.output == TurnOutput(LastAnswer(log).value)
  }

  // ---------------------------------------------------- one intent at a time

  /** About to spend a token on i: the approval a risky i needs is the last thing in the history. */
  ghost predicate Ready(env: Env, rec: TaskRecord, log: History, i: Intent, rest: seq<Intent>) {
    && rec.baseTurns <= |rec.turns|
    && Conversation(rec.OwnTurns())
    && Lawful(env, log) && Follows(env, log, Released(i))
    && RiskySpent(env, log) + (if Classify(env, i.kind) == Escalate then [i] else []) == Approvals(log)
    && EarlierTurnsDone(log)
    && Asks(log) == rec.Rounds() <= env.MaxRounds()
    && rec.delegations == PeersOpened(env, log)
    && |rec.delegations| == PeerTurns(rec.OwnTurns())
    && Idle(rec)
    && Current(rec, log)
    && Spent(log) + [i] + rest == Emitted(log)
  }

  /** What an action's outcome can be. */
  lemma OutcomeShape(env: Env, id: string, log: History, i: Intent)
    requires Faithful(env)
    ensures var a := Act(env, id, log, i);
            && (a.outcome.delegated || a.outcome.parked ==>
                  i.kind == DELEGATE_TASK && a.ok && a.outcome.peerTaskId != "")
            && !(a.outcome.delegated && a.outcome.parked)
            && (a.ok && a.outcome.peerTaskId != "" ==> a.outcome.delegated || a.outcome.parked)
  {
    var log1 := log + [Released(i)];
    assert NamesPeer(env.delegate(id, log1, i.target, i.body));
  }

  lemma FailureKeeps(env: Env, rec: TaskRecord, log: History, i: Intent, rest: seq<Intent>, o: Outcome, l: History)
    requires Ready(env, rec, log, i, rest) && ExtendedBy(env, log, i, o, l)
    ensures Sound(env, Rest(RecordDelegation(rec, o).(state := Failed, remaining := []), l))
  {
    CurrentFits(rec, log);
    var r := RecordDelegation(rec, o).(state := Failed, remaining := []);
    assert r.OwnTurns() == rec.OwnTurns();
    assert Queue(r) == [];
    assert Emitted(l) == Spent(l) + rest;
  }

  lemma ParkKeeps(env: Env, rec: TaskRecord, log: History, i: Intent, rest: seq<Intent>, o: Outcome, l: History)
    requires Ready(env, rec, log, i, rest) && ExtendedBy(env, log, i, o, l)
    requires i.kind == DELEGATE_TASK && o.peerTaskId != ""
    ensures Sound(env, Rest(ParkOnPeer(RecordDelegation(rec, o), o, rest), l))
  {
    CurrentFits(rec, log);
    var r := ParkOnPeer(RecordDelegation(rec, o), o, rest);
    assert r.OwnTurns() == rec.OwnTurns() && r.Rounds() == rec.Rounds();
    assert Queue(r) == rest;
    assert Emitted(l) == Spent(l) + rest;
    assert Emitted(log)[|Spent(log)|] == i;
  }

  lemma SendKeeps(env: Env, rec: TaskRecord, log: History, i: Intent, rest: seq<Intent>, o: Outcome, l: History)
    requires Ready(env, rec, log, i, rest) && ExtendedBy(env, log, i, o, l) && o.peerTaskId == ""
    ensures MidTurn(env, rec, l, rest)
  {
    assert Emitted(l) == Emitted(log);
  }

  lemma DelegationKeeps(env: Env, rec: TaskRecord, log: History, i: Intent, rest: seq<Intent>, o: Outcome, l: History)
    requires Ready(env, rec, log, i, rest) && ExtendedBy(env, log, i, o, l)
    requires i.kind == DELEGATE_TASK && o.peerTaskId != ""
    ensures MidTurn(env, RecordDelegation(rec, o).AddTurn(Message(Peer, o.output)), l, rest)
  {
    var m := Message(Peer, o.output);
    var r := RecordDelegation(rec, o).AddTurn(m);
    HeardCommon(rec, m);
    assert r.OwnTurns() == rec.AddTurn(m).OwnTurns() && r.Rounds() == rec.AddTurn(m).Rounds();
    assert Emitted(l) == Emitted(log) && Emitted(log)[|Spent(log)|] == i;
  }

  /** What one more peer turn does to the task's own transcript. */
  lemma HeardCommon(rec: TaskRecord, m: Message)
    requires m.role == Peer && rec.baseTurns <= |rec.turns|
    requires Conversation(rec.OwnTurns()) && |rec.OwnTurns()| > 1
    ensures var r := rec.AddTurn(m);
            && r.OwnTurns() == rec.OwnTurns() + [m] && Conversation(r.OwnTurns()) && |r.OwnTurns()| > 1
            && Last(r.OwnTurns()).role == Peer
            && LastSaid(r.OwnTurns()) == LastSaid(rec.OwnTurns())
            && r.Rounds() == rec.Rounds()
            && PeerTurns(r.OwnTurns()) == PeerTurns(rec.OwnTurns()) + 1
  {
    CountTurn(rec, m);
    ConversationGrows(rec.OwnTurns(), m);
    LastOfAppend(rec.OwnTurns(), m);
  }

  lemma SuccessKeeps(env: Env, rec: TaskRecord, log: History, i: Intent, rest: seq<Intent>, o: Outcome, l: History)
    requires Ready(env, rec, log, i, rest) && ExtendedBy(env, log, i, o, l)
    requires o.delegated ==> i.kind == DELEGATE_TASK && o.peerTaskId != ""
    requires !o.delegated ==> o.peerTaskId == ""
    ensures MidTurn(env, TakeOutcome(RecordDelegation(rec, o), o), l, rest)
  {
    if o.delegated {
      DelegationKeeps(env, rec, log, i, rest, o, l);
    } else {
      SendKeeps(env, rec, log, i, rest, o, l);
    }
  }

  lemma PerformKeeps(env: Env, rec: TaskRecord, log: History, i: Intent, rest: seq<Intent>)
    requires Faithful(env) && Ready(env, rec, log, i, rest)
    ensures var w := Perform(env, rec, log, i, rest);
            if w.halted then Sound(env, Rest(w.rec, w.log)) else MidTurn(env, w.rec, w.log, rest)
  {
    var a := Act(env, rec.taskId, log, i);
    ActExtends(env, rec.taskId, log, i);
    OutcomeShape(env, rec.taskId, log, i);
    if !a.ok {
      FailureKeeps(env, rec, log, i, rest, a.outcome, a.log);
    } else if a.outcome.parked {
      ParkKeeps(env, rec, log, i, rest, a.outcome, a.log);
    } else {
      SuccessKeeps(env, rec, log, i, rest, a.outcome, a.log);
    }
  }

  lemma DenialKeeps(env: Env, rec: TaskRecord, log: History, i: Intent, rest: seq<Intent>)
    requires MidTurn(env, rec, log, [i] + rest)
    ensures Sound(env, Rest(rec.(state := Rejected, remaining := []), log))
  {
    CurrentFits(rec, log);
    var r := rec.(state := Rejected, remaining := []);
    assert r.OwnTurns() == rec.OwnTurns() && r.Rounds() == rec.Rounds();
    assert Spent(log) + [] == Spent(log) && Queue(r) == [];
  }

  lemma EscalationKeeps(env: Env, rec: TaskRecord, log: History, i: Intent, rest: seq<Intent>)
    requires Faithful(env) && MidTurn(env, rec, log, [i] + rest) && Classify(env, i.kind) == Escalate
    ensures Sound(env, Rest(rec.(state := InputRequired, pending := i, remaining := rest), log))
  {
    CurrentFits(rec, log);
    var r := rec.(state := InputRequired, pending := i, remaining := rest);
    assert r.OwnTurns() == rec.OwnTurns() && r.Rounds() == rec.Rounds();
    assert Queue(r) == [i] + rest;
  }

  lemma IntentKeeps(env: Env, rec: TaskRecord, log: History, i: Intent, rest: seq<Intent>)
    requires Faithful(env) && MidTurn(env, rec, log, [i] + rest)
    ensures var w := RunIntent(env, rec, log, i, rest);
            if w.halted then Sound(env, Rest(w.rec, w.log)) else MidTurn(env, w.rec, w.log, rest)
  {
    match Classify(env, i.kind)
    case HardDeny => DenialKeeps(env, rec, log, i, rest);
    case Escalate => EscalationKeeps(env, rec, log, i, rest);
    case Permit =>
      Associates(Spent(log), [i], rest);
      PerformKeeps(env, rec, log, i, rest);
  }

  lemma {:induction false} IntentsKeep(env: Env, rec: TaskRecord, log: History, intents: seq<Intent>)
    requires Faithful(env) && MidTurn(env, rec, log, intents)
    ensures var w := RunIntents(env, rec, log, intents);
            if w.halted then Sound(env, Rest(w.rec, w.log)) else MidTurn(env, w.rec, w.log, [])
    decreases |intents|
  {
    if intents != [] {
      assert intents == [intents[0]] + intents[1..];
      IntentKeeps(env, rec, log, intents[0], intents[1..]);
      var w := RunIntent(env, rec, log, intents[0], intents[1..]);
      if !w.halted {
        IntentsKeep(env, w.rec, w.log, intents[1..]);
      }
    }
  }

  // ------------------------------------------------------ rounds and entries

  /** About to call the provider: the previous turn is complete and the cap not reached. */
  ghost predicate BetweenTurns(env: Env, rec: TaskRecord, log: History) {
    && Common(env, rec, log)
    && Idle(rec)
    && Spent(log) == Emitted(log)
    && Asks(log) == rec.Rounds() < env.MaxRounds()
    && |rec.delegations| == PeerTurns(rec.OwnTurns())
  }

  lemma AskKeeps(env: Env, rec: TaskRecord, log: History, input: string, ans: ProviderAnswer)
    requires BetweenTurns(env, rec, log)
    ensures var l := log + [Asked(input, ans)];
            if ans == RunFailed then Sound(env, Rest(rec.(state := Failed), l))
            else MidTurn(env, TakeAnswer(rec, ans), l, TurnIntents(ans))
  {
    Extend(env, log, Asked(input, ans));
    if ans == RunFailed {
      UnansweredKeeps(env, rec, log, input, log + [Asked(input, ans)]);
    } else {
      AnswerKeeps(env, rec, log, input, ans, log + [Asked(input, ans)]);
    }
  }

  lemma UnansweredKeeps(env: Env, rec: TaskRecord, log: History, input: string, l: History)
    requires BetweenTurns(env, rec, log) && OneMore(env, log, Asked(input, RunFailed), l)
    ensures Sound(env, Rest(rec.(state := Failed), l))
  {
    assert rec.(state := Failed).OwnTurns() == rec.OwnTurns();
  }

  lemma AnswerKeeps(env: Env, rec: TaskRecord, log: History, input: string, ans: ProviderAnswer, l: History)
    requires BetweenTurns(env, rec, log) && ans.Ran? && OneMore(env, log, Asked(input, ans), l)
    ensures MidTurn(env, TakeAnswer(rec, ans), l, TurnIntents(ans))
  {
    var m := Message(Assistant, ans.output);
    var r := TakeAnswer(rec, ans);
    CountTurn(rec, m);
    ConversationGrows(rec.OwnTurns(), m);
    LastOfAppend(rec.OwnTurns(), m);
    assert r.OwnTurns() == rec.OwnTurns() + [m] && r.Rounds() == rec.AddTurn(m).Rounds();
    assert Spent(l) + TurnIntents(ans) == Emitted(l);
  }

  lemma EndTurnKeeps(env: Env, rec: TaskRecord, log: History)
    requires MidTurn(env, rec, log, [])
    ensures match EndTurn(env, rec)
            case Finish(r) => Sound(env, Rest(r, log))
            case Exhausted(r) => Sound(env, Rest(r, log))
            case Continue(r) => BetweenTurns(env, r, log)
  {
    var own := rec.OwnTurns();
    assert Last(rec.turns) == Last(own);
    var r := EndTurn(env, rec).rec;
    assert r.OwnTurns() == own && r.Rounds() == rec.Rounds();
    if rec.finishRequested {
      FinishNeverDelegates(LastAnswer(log).value);
    }
    assert own[|own| - 1].role == Assistant || own[|own| - 1].role == Peer;
  }

  lemma {:induction false} RoundsKeep(env: Env, rec: TaskRecord, log: History)
    requires Faithful(env) && BetweenTurns(env, rec, log)
    ensures Sound(env, RunRounds(env, rec, log))
    decreases RoundsLeft(env, rec)
  {
    var input := RoundInput(env, rec);
    var ans := env.provider(rec.taskId, log, input);
    var l := log + [Asked(input, ans)];
    AskKeeps(env, rec, log, input, ans);
    if ans != RunFailed {
      IntentsKeep(env, TakeAnswer(rec, ans), l, TurnIntents(ans));
      var w := RunIntents(env, TakeAnswer(rec, ans), l, TurnIntents(ans));
      if !w.halted {
        EndTurnKeeps(env, w.rec, w.log);
        if EndTurn(env, w.rec).Continue? {
          RoundDecreases(env, rec, ans, l);
          RoundsKeep(env, EndTurn(env, w.rec).rec, w.log);
        }
      }
    }
  }

  lemma FinishTurnKeeps(env: Env, rec: TaskRecord, log: History, intents: seq<Intent>)
    requires Faithful(env) && MidTurn(env, rec, log, intents)
    ensures Sound(env, FinishTurn(env, rec, log, intents))
  {
    IntentsKeep(env, rec, log, intents);
    var w := RunIntents(env, rec, log, intents);
    if !w.halted {
      EndTurnKeeps(env, w.rec, w.log);
      if EndTurn(env, w.rec).Continue? {
        RoundsKeep(env, EndTurn(env, w.rec).rec, w.log);
      }
    }
  }

  lemma StartIsSound(env: Env, rec: TaskRecord)
    requires Faithful(env) && Fresh(rec)
    ensures Sound(env, Start(env, rec))
  {
    var r := if rec.turns == [] then rec.AddTurn(Message(User, rec.input)) else rec;
    assert r.OwnTurns() == [Message(User, rec.input)];
    assert BetweenTurns(env, r, []);
    RoundsKeep(env, r, []);
  }

  function IdleForm(rec: TaskRecord): TaskRecord {
    rec.(pending := NO_INTENT, remaining := [])
  }

  /** Once "approve" has been consumed the pending intent, and only it, may be performed. */
  lemma ApprovalIsReady(env: Env, s: Rest)
    requires Faithful(env) && Sound(env, s) && s.rec.state == InputRequired && s.rec.AwaitsVerdict()
    ensures Ready(env, IdleForm(s.rec), s.log + [Approved(s.rec.pending)], s.rec.pending, s.rec.remaining)
  {
    var log, i := s.log, s.rec.pending;
    Extend(env, log, Approved(i));
    LastOfAppend(log, Approved(i));
    ApprovedIsReady(env, s, log + [Approved(i)]);
  }

  lemma ApprovedIsReady(env: Env, s: Rest, l: History)
    requires Faithful(env) && Sound(env, s) && s.rec.state == InputRequired && s.rec.AwaitsVerdict()
    requires OneMore(env, s.log, Approved(s.rec.pending), l) && l != [] && Last(l) == Approved(s.rec.pending)
    ensures Ready(env, IdleForm(s.rec), l, s.rec.pending, s.rec.remaining)
  {
    var rec, log, i := s.rec, s.log, s.rec.pending;
    var idle := IdleForm(rec);
    assert idle.OwnTurns() == rec.OwnTurns() && idle.Rounds() == rec.Rounds();
    assert Queue(rec) == [i] + rec.remaining;
    Associates(Spent(log), [i], rec.remaining);
    assert Approvals(l) == RiskySpent(env, l) + [i];
  }

  /** Resuming on "approve" is performing the pending intent on the idle record. */
  lemma ApprovalPerforms(env: Env, rec: TaskRecord, log: History)
    ensures var l := log + [Approved(rec.pending)];
            var w := Perform(env, IdleForm(rec), l, rec.pending, rec.remaining);
            var a := Act(env, rec.taskId, l, rec.pending);
            var next := ResumeVerdict(env, rec, log, APPROVE);
            if !a.ok then
              && next == Rest(RecordDelegation(rec, a.outcome).(state := Failed), a.log)
              && w == Walk(RecordDelegation(IdleForm(rec), a.outcome).(state := Failed, remaining := []), a.log, true)
            else if w.halted then next == Rest(w.rec, w.log)
            else next == FinishTurn(env, w.rec, w.log, rec.remaining)
  {
  }

  /** A verdict: anything but "approve" rejects; "approve" releases exactly the pending intent. */
  lemma VerdictKeeps(env: Env, s: Rest, input: string)
    requires Faithful(env) && Sound(env, s) && s.rec.state == InputRequired && s.rec.AwaitsVerdict()
    ensures Sound(env, ResumeVerdict(env, s.rec, s.log, input))
  {
    var rec, log := s.rec, s.log;
    if input != APPROVE {
      var r := rec.(state := Rejected);
      assert r.OwnTurns() == rec.OwnTurns() && r.Rounds() == rec.Rounds();
    } else {
      var l := log + [Approved(rec.pending)];
      ApprovalIsReady(env, s);
      ApprovalPerforms(env, rec, log);
      PerformKeeps(env, IdleForm(rec), l, rec.pending, rec.remaining);
      var w := Perform(env, IdleForm(rec), l, rec.pending, rec.remaining);
      var a := Act(env, rec.taskId, l, rec.pending);
      if !a.ok {
        FailedVerdict(env, rec, a);
      } else if !w.halted {
        FinishTurnKeeps(env, w.rec, w.log, rec.remaining);
      }
    }
  }

  /** A failed approved action leaves the intent it was about, and the queue, on the FAILED record. */
  lemma FailedVerdict(env: Env, rec: TaskRecord, a: Acted)
    requires Sound(env, Rest(RecordDelegation(IdleForm(rec), a.outcome).(state := Failed, remaining := []), a.log))
    ensures Sound(env, Rest(RecordDelegation(rec, a.outcome).(state := Failed), a.log))
  {
    assert RecordDelegation(rec, a.outcome).(state := Failed).OwnTurns()
        == RecordDelegation(IdleForm(rec), a.outcome).(state := Failed, remaining := []).OwnTurns();
  }

  lemma WaitFailedKeeps(env: Env, s: Rest)
    requires Sound(env, s) && s.rec.state == InputRequired
    ensures Sound(env, Rest(ClearPeer(s.rec).(state := Failed), s.log))
  {
    var r := ClearPeer(s.rec).(state := Failed);
    assert r.OwnTurns() == s.rec.OwnTurns();
    assert Queue(r) == [] && Spent(s.log) + [] == Spent(s.log);
  }

  lemma ReparkedKeeps(env: Env, s: Rest, approval: bool)
    requires Sound(env, s) && s.rec.state == InputRequired
    ensures Sound(env, Rest(s.rec.(awaitingApproval := approval), s.log))
  {
    var r := s.rec.(awaitingApproval := approval);
    assert r.OwnTurns() == s.rec.OwnTurns() && r.Rounds() == s.rec.Rounds() && Queue(r) == Queue(s.rec);
  }

  /** The three ends of a message to a task parked on a peer. */
  lemma PeerMessageEnds(env: Env, rec: TaskRecord, log: History, input: string, read: PeerRead)
    requires rec.state == InputRequired
    ensures var next := ResumeFromPeer(env, rec, log, input, read);
            || next == Rest(ClearPeer(rec).(state := Failed), log)
            || (exists approval :: next == Rest(rec.(awaitingApproval := approval), log))
            || (exists m: Message :: m.role == Peer
                  && next == FinishTurn(env, ClearPeer(rec.AddTurn(m)).(state := Working), log, rec.remaining))
  {
    if !env.hasDelegator {
    } else if read == ReadFailed {
      assert rec.(state := InputRequired) == rec.(awaitingApproval := rec.awaitingApproval);
    } else {
      var (o, ok) := OutcomeForPeer(rec.awaitingRole, read.result);
      var m := Message(Peer, if ok then o.output else WithoutOutputText(env, read.result));
      assert rec.(awaitingApproval := o.peerApproval, state := InputRequired)
          == rec.(awaitingApproval := o.peerApproval);
      assert m.role == Peer;
    }
  }

  lemma PeerMessageKeeps(env: Env, s: Rest, input: string, read: PeerRead)
    requires Faithful(env) && Sound(env, s) && s.rec.state == InputRequired && s.rec.AwaitsPeer()
    ensures Sound(env, ResumeFromPeer(env, s.rec, s.log, input, read))
  {
    var rec, log := s.rec, s.log;
    var next := ResumeFromPeer(env, rec, log, input, read);
    PeerMessageEnds(env, rec, log, input, read);
    if next == Rest(ClearPeer(rec).(state := Failed), log) {
      WaitFailedKeeps(env, s);
    } else if approval :| next == Rest(rec.(awaitingApproval := approval), log) {
      ReparkedKeeps(env, s, approval);
    } else {
      var m: Message :| m.role == Peer
                        && next == FinishTurn(env, ClearPeer(rec.AddTurn(m)).(state := Working), log, rec.remaining);
      HeardKeeps(env, s, m);
    }
  }

  lemma HeardIsCommon(env: Env, rec: TaskRecord, log: History, m: Message)
    requires m.role == Peer && Common(env, rec, log) && |rec.OwnTurns()| > 1
    ensures Common(env, ClearPeer(rec.AddTurn(m)).(state := Working), log)
  {
    HeardCommon(rec, m);
    assert ClearPeer(rec.AddTurn(m)).(state := Working).OwnTurns() == rec.AddTurn(m).OwnTurns();
  }

  lemma HeardIsCurrent(rec: TaskRecord, log: History, m: Message)
    requires m.role == Peer && rec.baseTurns <= |rec.turns| && Conversation(rec.OwnTurns())
    requires Current(rec, log) && Delegates(Emitted(log))
    ensures Current(ClearPeer(rec.AddTurn(m)).(state := Working), log)
  {
    HeardCommon(rec, m);
    assert ClearPeer(rec.AddTurn(m)).(state := Working).OwnTurns() == rec.AddTurn(m).OwnTurns();
  }

  /** The awaited peer has been heard: the turn goes on where it stopped. */
  lemma HeardIsMidTurn(env: Env, s: Rest, m: Message)
    requires Faithful(env) && Sound(env, s) && s.rec.state == InputRequired && s.rec.AwaitsPeer()
    requires m.role == Peer
    ensures MidTurn(env, ClearPeer(s.rec.AddTurn(m)).(state := Working), s.log, s.rec.remaining)
  {
    var rec := s.rec;
    var r := ClearPeer(rec.AddTurn(m)).(state := Working);
    HeardCommon(rec, m);
    HeardIsCommon(env, rec, s.log, m);
    HeardIsCurrent(rec, s.log, m);
    assert r.OwnTurns() == rec.AddTurn(m).OwnTurns() && r.Rounds() == rec.AddTurn(m).Rounds();
    assert Queue(rec) == rec.remaining;
  }

  lemma HeardKeeps(env: Env, s: Rest, m: Message)
    requires Faithful(env) && Sound(env, s) && s.rec.state == InputRequired && s.rec.AwaitsPeer()
    requires m.role == Peer
    ensures Sound(env, FinishTurn(env, ClearPeer(s.rec.AddTurn(m)).(state := Working), s.log, s.rec.remaining))
  {
    HeardIsMidTurn(env, s, m);
    FinishTurnKeeps(env, ClearPeer(s.rec.AddTurn(m)).(state := Working), s.log, s.rec.remaining);
  }

  lemma StepKeeps(env: Env, s: Rest, e: Event)
    requires Faithful(env) && Sound(env, s)
    ensures Sound(env, Step(env, s, e))
  {
    if !s.rec.state.Terminal() && e.Arrives? {
      if s.rec.AwaitsPeer() {
        PeerMessageKeeps(env, s, e.input, e.read);
      } else {
        VerdictKeeps(env, s, e.input);
      }
    }
  }

  /** Every rest point of every run is sound. */
  lemma {:induction false} RunIsSound(env: Env, rec: TaskRecord, schedule: seq<Event>)
    requires Faithful(env) && Fresh(rec)
    ensures Sound(env, Run(env, Start(env, rec), schedule))
    decreases |schedule|
  {
    if schedule == [] {
      StartIsSound(env, rec);
    } else {
      RunIsSound(env, rec, Init(schedule));
      StepKeeps(env, Run(env, Start(env, rec), Init(schedule)), Last(schedule));
    }
  }
}
