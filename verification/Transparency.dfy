/**
 * Parking is invisible: every schedule drives the parking machine to exactly what the straight-line
 * program computes from the answers the schedule brings. A parked record is read as the rest of that
 * program; re-parks and restarts do not move it.
 */
module Transparency {
  import opened Basics
  import opened BoundedContext
  import opened Tasks
  import opened Machine
  import opened Soundness
  import opened StraightLine
  import opened PeerSeen
  import opened TaskTheorems

  function JobOf(rec: TaskRecord): Job {
    Job(rec.taskId, rec.input, rec.baseTurns)
  }

  /** The program's local variables, as the record holds them. */
  function Locals(rec: TaskRecord, log: History, answers: seq<Answer>): Frame {
    Frame(Going, rec.output, rec.turns, rec.delegations, log, answers)
  }

  /** Where the program is blocked when the task is parked. */
  function Blocking(env: Env, rec: TaskRecord, f: Frame): Frame {
    if rec.AwaitsPeer() then AwaitPeer(env, f) else AskHuman(env, rec.taskId, f, rec.pending)
  }

  /** What the program does from a rest point on, given the answers still to come. */
  function Future(env: Env, s: Rest, answers: seq<Answer>): Frame {
    var f := Locals(s.rec, s.log, answers);
    if s.rec.state.Terminal() then f.End(s.rec.state)
    else
      AfterHandling(env, JobOf(s.rec), s.rec.finishRequested,
                    HandleAll(env, s.rec.taskId, Blocking(env, s.rec, f), s.rec.remaining))
  }

  /**
   * The answer a message brings to a parked task, if it brings one; `escalated` says whether the awaited peer
   * was last seen waiting on its human.
   */
  function Brings(env: Env, rec: TaskRecord, escalated: bool, e: Event): seq<Answer> {
    if Over(rec.state) || e.Restarts? then []
    else if !rec.AwaitsPeer() then [Verdict(e.input == "approve")]
    else if !env.hasDelegator then [PeerGaveUp]
    else if e.read == ReadFailed then []
    else
      var st := e.read.result.state;
      if Over(st) then [PeerEnded(e.read.result, escalated)]
      else if st == Submitted || st == Working || st == InputRequired then
        if e.input == "peer-wait-timeout" then [PeerGaveUp] else []
      else [PeerGaveUp]
  }

  /** All the answers a schedule brings. */
  function Answers(env: Env, rec: TaskRecord, schedule: seq<Event>): seq<Answer> {
    if schedule == [] then []
    else
      var before := Init(schedule);
      Answers(env, rec, before)
      + Brings(env, Reached(env, rec, before).rec, Seen(env, rec, before) == Some(InputRequired), Last(schedule))
  }

  // ------------------------------------------------------------ one execution

  /** What machine and program have made of one intent: going on alike, ended alike, or waiting alike. */
  predicate Alike(env: Env, rec: TaskRecord, rest: seq<Intent>, answers: seq<Answer>, w: Walk, f: Frame) {
    var g := Locals(w.rec, w.log, answers);
    && w.rec.taskId == rec.taskId && JobOf(w.rec) == JobOf(rec)
    && w.rec.finishRequested == rec.finishRequested
    && if !w.halted then f == g && Idle(w.rec)
       else if w.rec.state.Terminal() then f == g.End(w.rec.state)
       else f == Blocking(env, w.rec, g) && w.rec.remaining == rest
  }

  lemma SendAgrees(env: Env, rec: TaskRecord, log: History, i: Intent, rest: seq<Intent>, answers: seq<Answer>)
    requires Faithful(env) && Idle(rec) && i.kind != DELEGATE_TASK
    ensures var w := Perform(env, rec, log, i, rest);
            var f := CarryOut(env, rec.taskId, Locals(rec, log, answers), i);
            Alike(env, rec, rest, answers, w, f)
  {
    assert Locals(rec, log, answers).Do(Released(i)).log == log + [Released(i)];
  }

  /** The program's call of a peer, told by the machine's delegation. */
  lemma CallIsDelegate(env: Env, id: string, f: Frame, role: string, body: string)
    requires Faithful(env)
    ensures var a := Delegate(env, id, f.log, role, body);
            var named := if a.outcome.peerTaskId == "" then f.delegations
                         else f.delegations + [Delegation(a.outcome.peerRole, a.outcome.peerTaskId)];
            var g := f.(log := a.log, delegations := named);
            && (a.ok ==> a.outcome.parked != a.outcome.delegated)
            && (a.ok && a.outcome.parked ==> a.outcome.peerTaskId != "")
            && CallPeer(env, id, f, role, body) ==
               if !a.ok then g.End(Failed)
               else if a.outcome.parked then AwaitPeer(env, g)
               else g.Hear(a.outcome.output)
  {
    assert NamesPeer(env.delegate(id, f.log, role, body));
  }

  lemma CallAgrees(env: Env, rec: TaskRecord, log: History, i: Intent, rest: seq<Intent>, answers: seq<Answer>)
    requires Faithful(env) && Idle(rec) && i.kind == DELEGATE_TASK
    ensures var w := Perform(env, rec, log, i, rest);
            var f := CarryOut(env, rec.taskId, Locals(rec, log, answers), i);
            Alike(env, rec, rest, answers, w, f)
  {
    var f := Locals(rec, log, answers).Do(Released(i));
    assert f.log == log + [Released(i)];
    CallIsDelegate(env, rec.taskId, f, i.target, i.body);
  }

  /** Performing an intent, seen from both sides. */
  lemma PerformAgrees(env: Env, rec: TaskRecord, log: History, i: Intent, rest: seq<Intent>, answers: seq<Answer>)
    requires Faithful(env) && Idle(rec)
    ensures var w := Perform(env, rec, log, i, rest);
            var f := CarryOut(env, rec.taskId, Locals(rec, log, answers), i);
            Alike(env, rec, rest, answers, w, f)
  {
    if i.kind == DELEGATE_TASK {
      CallAgrees(env, rec, log, i, rest, answers);
    } else {
      SendAgrees(env, rec, log, i, rest, answers);
    }
  }

  lemma IntentAgrees(env: Env, rec: TaskRecord, log: History, i: Intent, rest: seq<Intent>, answers: seq<Answer>)
    requires Faithful(env) && Idle(rec)
    ensures var w := RunIntent(env, rec, log, i, rest);
            var f := Handle(env, rec.taskId, Locals(rec, log, answers), i);
            Alike(env, rec, rest, answers, w, f)
  {
    PerformAgrees(env, rec, log, i, rest, answers);
  }

  /** A walk either leaves the program going, or rests with the rest of the turn as its future. */
  lemma {:induction false} IntentsAgree(env: Env, rec: TaskRecord, log: History, intents: seq<Intent>,
                                        answers: seq<Answer>)
    requires Faithful(env) && Idle(rec)
    ensures var w := RunIntents(env, rec, log, intents);
            var f := HandleAll(env, rec.taskId, Locals(rec, log, answers), intents);
            if w.halted then
              Future(env, Rest(w.rec, w.log), answers) == AfterHandling(env, JobOf(rec), rec.finishRequested, f)
            else
              && f == Locals(w.rec, w.log, answers) && Idle(w.rec) && JobOf(w.rec) == JobOf(rec)
              && w.rec.finishRequested == rec.finishRequested
    decreases |intents|
  {
    if intents != [] {
      IntentAgrees(env, rec, log, intents[0], intents[1..], answers);
      var w := RunIntent(env, rec, log, intents[0], intents[1..]);
      if !w.halted {
        IntentsAgree(env, w.rec, w.log, intents[1..], answers);
      }
    }
  }

  /** A round of the machine is a turn, and so is a round of the program. */
  lemma RoundIsTurn(env: Env, rec: TaskRecord, log: History)
    ensures var input := RoundInput(env, rec);
            var ans := env.provider(rec.taskId, log, input);
            var l := log + [Asked(input, ans)];
            RunRounds(env, rec, log) == if ans == RunFailed then Rest(rec.(state := Failed), l)
                                        else FinishTurn(env, TakeAnswer(rec, ans), l, TurnIntents(ans))
  {
  }

  lemma ProgramRoundIsTurn(env: Env, rec: TaskRecord, log: History, answers: seq<Answer>)
    ensures var input := RoundInput(env, rec);
            var ans := env.provider(rec.taskId, log, input);
            var l := log + [Asked(input, ans)];
            Rounds(env, JobOf(rec), Locals(rec, log, answers)) ==
            if ans == RunFailed then Locals(rec, l, answers).End(Failed)
            else AfterHandling(env, JobOf(rec), TurnFinish(ans).Some?,
                               HandleAll(env, rec.taskId, Locals(TakeAnswer(rec, ans), l, answers), TurnIntents(ans)))
  {
    var f := Locals(rec, log, answers);
    var input := RoundInput(env, rec);
    var ans := env.provider(rec.taskId, log, input);
    var l := log + [Asked(input, ans)];
    RoundOnce(env, JobOf(rec), f);
    assert ProgramInput(env, JobOf(rec), f) == input;
    assert f.Do(Asked(input, ans)) == Locals(rec, l, answers);
    if ans != RunFailed {
      assert Answered(f.Do(Asked(input, ans)), ans) == Locals(TakeAnswer(rec, ans), l, answers);
    }
  }

  lemma {:induction false} RoundsAgree(env: Env, rec: TaskRecord, log: History, answers: seq<Answer>)
    requires Faithful(env) && Idle(rec)
    ensures Future(env, RunRounds(env, rec, log), answers) == Rounds(env, JobOf(rec), Locals(rec, log, answers))
    decreases RoundsLeft(env, rec), 1
  {
    var input := RoundInput(env, rec);
    var ans := env.provider(rec.taskId, log, input);
    var l := log + [Asked(input, ans)];
    RoundIsTurn(env, rec, log);
    ProgramRoundIsTurn(env, rec, log, answers);
    if ans != RunFailed {
      var rec1 := TakeAnswer(rec, ans);
      IntentsAgree(env, rec1, l, TurnIntents(ans), answers);
      var w := RunIntents(env, rec1, l, TurnIntents(ans));
      if !w.halted {
        RoundDecreases(env, rec, ans, l);
        TurnEndAgrees(env, rec, w.rec, w.log, answers);
      }
    }
  }

  /** The two loops make the same decision at the end of a turn. */
  lemma TurnEndAgrees(env: Env, from: TaskRecord, rec: TaskRecord, log: History, answers: seq<Answer>)
    requires Faithful(env) && Idle(rec)
    requires EndTurn(env, rec).Continue? ==> RoundsLeft(env, EndTurn(env, rec).rec) < RoundsLeft(env, from)
    ensures Future(env, AfterTurn(env, rec, log), answers)
         == AfterHandling(env, JobOf(rec), rec.finishRequested, Locals(rec, log, answers))
    decreases RoundsLeft(env, from), 0
  {
    if EndTurn(env, rec).Continue? {
      RoundsAgree(env, EndTurn(env, rec).rec, log, answers);
    }
  }

  lemma FinishTurnAgrees(env: Env, rec: TaskRecord, log: History, intents: seq<Intent>, answers: seq<Answer>)
    requires Faithful(env) && Idle(rec)
    ensures Future(env, FinishTurn(env, rec, log, intents), answers)
         == AfterHandling(env, JobOf(rec), rec.finishRequested,
                          HandleAll(env, rec.taskId, Locals(rec, log, answers), intents))
  {
    IntentsAgree(env, rec, log, intents, answers);
    var w := RunIntents(env, rec, log, intents);
    if !w.halted && EndTurn(env, w.rec).Continue? {
      RoundsAgree(env, EndTurn(env, w.rec).rec, w.log, answers);
    }
  }

  // ------------------------------------------------------------ one message

  function Decided(env: Env, rec: TaskRecord, f: Frame, approve: bool): Frame {
    if approve then CarryOut(env, rec.taskId, f.Do(Approved(rec.pending)), rec.pending) else f.End(Rejected)
  }

  /** From a verdict on, the program hands over to the pending intent and then to the rest of the turn. */
  lemma FutureOfVerdict(env: Env, s: Rest, approve: bool, answers: seq<Answer>)
    requires s.rec.state == InputRequired && !s.rec.AwaitsPeer()
    ensures Future(env, s, [Verdict(approve)] + answers)
         == AfterHandling(env, JobOf(s.rec), s.rec.finishRequested,
                          HandleAll(env, s.rec.taskId,
                                    Decided(env, s.rec, Locals(s.rec, s.log, answers), approve), s.rec.remaining))
  {
    var asked := [Verdict(approve)] + answers;
    assert asked[0] == Verdict(approve) && asked[1..] == answers;
  }

  lemma ApprovalAgrees(env: Env, s: Rest, answers: seq<Answer>)
    requires Faithful(env) && Sound(env, s) && s.rec.state == InputRequired && s.rec.AwaitsVerdict()
    ensures Future(env, s, [Verdict(true)] + answers)
         == Future(env, ResumeVerdict(env, s.rec, s.log, APPROVE), answers)
  {
    var rec := s.rec;
    var l := s.log + [Approved(rec.pending)];
    FutureOfVerdict(env, s, true, answers);
    ApprovalPerforms(env, rec, s.log);
    PerformAgrees(env, IdleForm(rec), l, rec.pending, rec.remaining, answers);
    assert Locals(IdleForm(rec), l, answers) == Locals(rec, s.log, answers).Do(Approved(rec.pending));
    var w := Perform(env, IdleForm(rec), l, rec.pending, rec.remaining);
    if !w.halted {
      FinishTurnAgrees(env, w.rec, w.log, rec.remaining, answers);
    }
  }

  /** What the program makes of the end of its wait. */
  function Told(env: Env, f: Frame, answer: Answer): Frame {
    match answer
    case PeerEnded(res, escalated) =>
      if res.state == Completed then f.Hear(res.output)
      else if Over(res.state) && escalated then f.Hear(NothingSaid(env, res))
      else f.End(Failed)
    case _ => f.End(Failed)
  }

  lemma FutureOfPeer(env: Env, s: Rest, answer: Answer, answers: seq<Answer>)
    requires s.rec.state == InputRequired && s.rec.AwaitsPeer()
    ensures Future(env, s, [answer] + answers)
         == AfterHandling(env, JobOf(s.rec), s.rec.finishRequested,
                          HandleAll(env, s.rec.taskId,
                                    Told(env, Locals(s.rec, s.log, answers), answer), s.rec.remaining))
  {
    var asked := [answer] + answers;
    assert asked[0] == answer && asked[1..] == answers;
  }

  /** The machine's view of the same: an early message is a stutter, any other tells the program something. */
  lemma PeerMessageTells(env: Env, rec: TaskRecord, log: History, input: string, read: PeerRead, answers: seq<Answer>)
    requires rec.state == InputRequired && rec.AwaitsPeer() && rec.pending == NO_INTENT
    ensures var brought := Brings(env, rec, rec.awaitingApproval, Arrives(input, read));
            var next := ResumeFromPeer(env, rec, log, input, read);
            if brought == [] then
              next.log == log && exists approval :: next.rec == rec.(awaitingApproval := approval)
            else
              && |brought| == 1
              && var f := Told(env, Locals(rec, log, answers), brought[0]);
                 if f.status != Going then
                   f == Locals(rec, log, answers).End(Failed) && next == Rest(ClearPeer(rec).(state := Failed), log)
                 else exists m: Message ::
                   && f == Locals(rec, log, answers).(turns := rec.turns + [m])
                   && next == FinishTurn(env, ClearPeer(rec.AddTurn(m)).(state := Working), log, rec.remaining)
  {
    var brought := Brings(env, rec, rec.awaitingApproval, Arrives(input, read));
    var next := ResumeFromPeer(env, rec, log, input, read);
    if brought == [] {
      var approval := if read == ReadFailed then rec.awaitingApproval
                      else OutcomeForPeer(rec.awaitingRole, read.result).0.peerApproval;
      assert next.rec == rec.(awaitingApproval := approval);
    } else if Told(env, Locals(rec, log, answers), brought[0]).status == Going {
      var (o, ok) := OutcomeForPeer(rec.awaitingRole, read.result);
      var m := Message(Peer, if ok then o.output else WithoutOutputText(env, read.result));
      assert Told(env, Locals(rec, log, answers), brought[0]) == Locals(rec, log, answers).(turns := rec.turns + [m]);
      assert next == FinishTurn(env, ClearPeer(rec.AddTurn(m)).(state := Working), log, rec.remaining);
    }
  }

  /** A message to a task that awaits its peer: an early one changes nothing the program can see. */
  lemma PeerMessageAgrees(env: Env, s: Rest, input: string, read: PeerRead, answers: seq<Answer>)
    requires Faithful(env) && Sound(env, s) && s.rec.state == InputRequired && s.rec.AwaitsPeer()
    ensures Future(env, s, Brings(env, s.rec, s.rec.awaitingApproval, Arrives(input, read)) + answers)
         == Future(env, ResumeFromPeer(env, s.rec, s.log, input, read), answers)
  {
    var rec, log := s.rec, s.log;
    var brought := Brings(env, rec, rec.awaitingApproval, Arrives(input, read));
    PeerMessageTells(env, rec, log, input, read, answers);
    if brought == [] {
      assert [] + answers == answers;
    } else {
      assert brought == [brought[0]];
      FutureOfPeer(env, s, brought[0], answers);
      var f := Told(env, Locals(rec, log, answers), brought[0]);
      if f.status == Going {
        var m: Message :|
          && f == Locals(rec, log, answers).(turns := rec.turns + [m])
          && ResumeFromPeer(env, rec, log, input, read)
             == FinishTurn(env, ClearPeer(rec.AddTurn(m)).(state := Working), log, rec.remaining);
        var r := ClearPeer(rec.AddTurn(m)).(state := Working);
        assert Locals(r, log, answers) == f;
        FinishTurnAgrees(env, r, log, rec.remaining, answers);
      }
    }
  }

  lemma StepAgrees(env: Env, s: Rest, e: Event, answers: seq<Answer>)
    requires Faithful(env) && Sound(env, s)
    ensures Future(env, s, Brings(env, s.rec, s.rec.awaitingApproval, e) + answers)
         == Future(env, Step(env, s, e), answers)
  {
    if s.rec.state.Terminal() || e.Restarts? {
      assert [] + answers == answers;
    } else if s.rec.AwaitsPeer() {
      PeerMessageAgrees(env, s, e.input, e.read, answers);
    } else {
      if e.input == APPROVE {
        ApprovalAgrees(env, s, answers);
      } else {
        FutureOfVerdict(env, s, false, answers);
      }
    }
  }

  // --------------------------------------------------------------- whole runs

  lemma StartAgrees(env: Env, rec: TaskRecord, answers: seq<Answer>)
    requires Faithful(env) && Fresh(rec)
    ensures Program(env, rec, answers) == Future(env, Start(env, rec), answers)
  {
    var r := if rec.turns == [] then rec.AddTurn(Message(User, rec.input)) else rec;
    assert [] + [Message(User, rec.input)] == [Message(User, rec.input)];
    RoundsAgree(env, r, [], answers);
  }

  /** What a message brings does not depend on the record's own flag: that is what was seen of the peer. */
  lemma FlagIsSeen(env: Env, rec: TaskRecord, schedule: seq<Event>, e: Event)
    requires Faithful(env) && Fresh(rec)
    ensures var r := Reached(env, rec, schedule).rec;
            Brings(env, r, r.awaitingApproval, e) ==
            Brings(env, r, Seen(env, rec, schedule) == Some(InputRequired), e)
  {
    FlagIsWhatWasSeen(env, rec, schedule);
    RunIsSound(env, rec, schedule);
  }

  lemma {:induction false} RunAgrees(env: Env, rec: TaskRecord, schedule: seq<Event>, later: seq<Answer>)
    requires Faithful(env) && Fresh(rec)
    ensures Program(env, rec, Answers(env, rec, schedule) + later)
         == Future(env, Reached(env, rec, schedule), later)
    decreases |schedule|
  {
    if schedule == [] {
      assert [] + later == later;
      StartAgrees(env, rec, later);
    } else {
      var before, e := Init(schedule), Last(schedule);
      var s := Reached(env, rec, before);
      var now := Brings(env, s.rec, s.rec.awaitingApproval, e);
      FlagIsSeen(env, rec, before, e);
      Associates(Answers(env, rec, before), now, later);
      RunAgrees(env, rec, before, now + later);
      RunIsSound(env, rec, before);
      StepAgrees(env, s, e, later);
    }
  }

  /** The program's variables when the task rests: ended as the task has, or blocked, nothing left over. */
  function Shown(s: Rest): Frame {
    Locals(s.rec, s.log, []).(status := if Over(s.rec.state) then Ended(s.rec.state) else Blocked)
  }

  /**
   * For every schedule of verdicts, wake-ups, early messages, failed readings and restarts, the task's
   * output, transcript, delegations and history are those of the straight-line program given the same
   * answers; it has ended, and in the same state, exactly when the program has, and consumes them all.
   */
  lemma ParkingIsInvisible(env: Env, rec: TaskRecord, schedule: seq<Event>)
    requires Faithful(env) && Fresh(rec)
    ensures Program(env, rec, Answers(env, rec, schedule)) == Shown(Reached(env, rec, schedule))
  {
    var answers := Answers(env, rec, schedule);
    RunAgrees(env, rec, schedule, []);
    assert answers + [] == answers;
    RunIsSound(env, rec, schedule);
  }
}
