/**
 * The state the awaited peer was last seen in, told from the history and the readings alone, and what the
 * record's flag for it is worth: whether the peer's later failure is the peer's turn or the task's own.
 */
module PeerSeen {
  import opened Basics
  import opened BoundedContext
  import opened Tasks
  import opened Machine
  import opened Soundness
  import opened TaskTheorems

  predicate ParkedOnPeer(rec: TaskRecord) {
    rec.state == InputRequired && rec.AwaitsPeer()
  }

  /** The state in the reply to the last delegation. */
  function Replied(log: History): Option<TaskState> {
    if log == [] then None
    else if Last(log).Delegated? then
      if Last(log).reply.Opened? then Some(Last(log).reply.result.state) else None
    else Replied(Init(log))
  }

  /**
   * What the awaited peer was last seen in: what its opening replied, until a successful reading leaves the
   * task in the same wait, and then what was read. The same wait goes on while nothing is added to the history.
   */
  function Seen(env: Env, rec: TaskRecord, schedule: seq<Event>): Option<TaskState> {
    if schedule == [] then Replied(Start(env, rec).log)
    else
      var s, t := Reached(env, rec, Init(schedule)), Reached(env, rec, schedule);
      if t.log != s.log then Replied(t.log)
      else if ParkedOnPeer(s.rec) && ParkedOnPeer(t.rec) && Last(schedule).Arrives? && Last(schedule).read.Read?
      then Some(Last(schedule).read.result.state)
      else Seen(env, rec, Init(schedule))
  }

  // -------------------------------------------------- one execution's parks

  /** Nothing on the record speaks of a peer. */
  predicate Unattended(rec: TaskRecord) {
    rec.awaitingTaskId == "" && rec.awaitingRole == "" && !rec.awaitingApproval
  }

  /** The record's flag says whether the peer was seen waiting on its own human. */
  predicate Flagged(rec: TaskRecord, seen: Option<TaskState>) {
    if ParkedOnPeer(rec) then rec.awaitingApproval <==> seen == Some(InputRequired) else Unattended(rec)
  }

  lemma RepliedNext(log: History, e: Effect)
    ensures Replied(log + [e]) == if !e.Delegated? then Replied(log)
                                  else if e.reply.Opened? then Some(e.reply.result.state) else None
  {
    LastOfAppend(log, e);
  }

  /** A park says of its peer what the opening replied. */
  lemma ActReplies(env: Env, id: string, log: History, i: Intent)
    requires NamesPeers(env)
    ensures var a := Act(env, id, log, i);
            a.ok && a.outcome.parked ==>
              && a.outcome.peerTaskId != ""
              && (a.outcome.peerApproval <==> Replied(a.log) == Some(InputRequired))
  {
    var log1 := log + [Released(i)];
    ParksOnNamed(env, id, log, i);
    if i.kind == DELEGATE_TASK {
      RepliedNext(log1, Delegated(i.target, i.body, env.delegate(id, log1, i.target, i.body)));
    }
  }

  lemma AfterActionFlags(rec: TaskRecord, a: Acted, rest: seq<Intent>)
    requires Unattended(rec)
    requires a.ok && a.outcome.parked ==>
               a.outcome.peerTaskId != "" && (a.outcome.peerApproval <==> Replied(a.log) == Some(InputRequired))
    ensures var w := AfterAction(rec, a, rest); Flagged(w.rec, Replied(w.log)) && (!w.halted ==> Unattended(w.rec))
  {
  }

  lemma IntentFlags(env: Env, rec: TaskRecord, log: History, i: Intent, rest: seq<Intent>)
    requires NamesPeers(env) && Unattended(rec)
    ensures var w := RunIntent(env, rec, log, i, rest);
            Flagged(w.rec, Replied(w.log)) && (!w.halted ==> Unattended(w.rec))
  {
    ActReplies(env, rec.taskId, log, i);
    AfterActionFlags(rec, Act(env, rec.taskId, log, i), rest);
  }

  lemma {:induction false} WalkFlags(env: Env, rec: TaskRecord, log: History, intents: seq<Intent>)
    requires NamesPeers(env) && Unattended(rec)
    ensures var w := RunIntents(env, rec, log, intents);
            Flagged(w.rec, Replied(w.log)) && (!w.halted ==> Unattended(w.rec))
    decreases |intents|
  {
    if intents != [] {
      IntentFlags(env, rec, log, intents[0], intents[1..]);
      var w := RunIntent(env, rec, log, intents[0], intents[1..]);
      if !w.halted {
        WalkFlags(env, w.rec, w.log, intents[1..]);
      }
    }
  }

  lemma EndTurnUnattended(env: Env, rec: TaskRecord)
    requires Unattended(rec)
    ensures Unattended(EndTurn(env, rec).rec)
  {
  }

  lemma {:induction false} RoundsFlag(env: Env, rec: TaskRecord, log: History)
    requires NamesPeers(env) && Unattended(rec)
    ensures var t := RunRounds(env, rec, log); Flagged(t.rec, Replied(t.log))
    decreases RoundsLeft(env, rec)
  {
    var input := RoundInput(env, rec);
    var ans := env.provider(rec.taskId, log, input);
    var l := log + [Asked(input, ans)];
    if ans != RunFailed {
      WalkFlags(env, TakeAnswer(rec, ans), l, TurnIntents(ans));
      var w := RunIntents(env, TakeAnswer(rec, ans), l, TurnIntents(ans));
      if !w.halted {
        EndTurnUnattended(env, w.rec);
        if EndTurn(env, w.rec).Continue? {
          RoundDecreases(env, rec, ans, l);
          RoundsFlag(env, EndTurn(env, w.rec).rec, w.log);
        }
      }
    }
  }

  lemma TurnFlags(env: Env, rec: TaskRecord, log: History, intents: seq<Intent>)
    requires NamesPeers(env) && Unattended(rec)
    ensures var t := FinishTurn(env, rec, log, intents); Flagged(t.rec, Replied(t.log))
  {
    WalkFlags(env, rec, log, intents);
    var w := RunIntents(env, rec, log, intents);
    if !w.halted {
      EndTurnUnattended(env, w.rec);
      if EndTurn(env, w.rec).Continue? {
        RoundsFlag(env, EndTurn(env, w.rec).rec, w.log);
      }
    }
  }

  lemma AfterApprovalFlags(env: Env, rec: TaskRecord, a: Acted)
    requires NamesPeers(env) && Unattended(rec)
    requires a.ok && a.outcome.parked ==>
               a.outcome.peerTaskId != "" && (a.outcome.peerApproval <==> Replied(a.log) == Some(InputRequired))
    ensures var t := AfterApproval(env, rec, a); Flagged(t.rec, Replied(t.log))
  {
    if a.ok && !a.outcome.parked {
      var next := TakeOutcome(RecordDelegation(rec, a.outcome), a.outcome).(pending := NO_INTENT, remaining := []);
      TurnFlags(env, next, a.log, rec.remaining);
    }
  }

  lemma VerdictFlags(env: Env, s: Rest, input: string)
    requires NamesPeers(env) && Unattended(s.rec)
    ensures var t := ResumeVerdict(env, s.rec, s.log, input); Flagged(t.rec, Replied(t.log))
  {
    if input == APPROVE {
      var l := s.log + [Approved(s.rec.pending)];
      ActReplies(env, s.rec.taskId, l, s.rec.pending);
      AfterApprovalFlags(env, s.rec, Act(env, s.rec.taskId, l, s.rec.pending));
    }
  }

  // ------------------------------------------------------ messages to a wait

  /** A message to a peer-parked task leaves it in its wait, or ends that and goes on from an unattended record. */
  lemma WaitGoesOnOrEnds(env: Env, s: Rest, input: string, read: PeerRead)
    requires NamesPeers(env) && ParkedOnPeer(s.rec)
    ensures var t := ResumeFromPeer(env, s.rec, s.log, input, read);
            if Reparks(env, s.rec, input, read) then
              && t == Rest(s.rec.(awaitingApproval := t.rec.awaitingApproval), s.log)
              && (t.rec.awaitingApproval <==>
                    if read.Read? then read.result.state == InputRequired else s.rec.awaitingApproval)
            else Flagged(t.rec, Replied(t.log))
  {
    PeerMessageEnds(env, s.rec, s.log, input, read);
    if !Reparks(env, s.rec, input, read) && read.Read? && env.hasDelegator {
      var (o, ok) := OutcomeForPeer(s.rec.awaitingRole, read.result);
      var m := Message(Peer, if ok then o.output else WithoutOutputText(env, read.result));
      TurnFlags(env, ClearPeer(s.rec.AddTurn(m)).(state := Working), s.log, s.rec.remaining);
    }
  }

  /** A new park adds to the history. */
  lemma {:induction false} WalkParksLater(env: Env, rec: TaskRecord, log: History, intents: seq<Intent>)
    requires Unattended(rec)
    ensures var w := RunIntents(env, rec, log, intents); ParkedOnPeer(w.rec) ==> |log| < |w.log|
    decreases |intents|
  {
    if intents != [] {
      var w := RunIntent(env, rec, log, intents[0], intents[1..]);
      IntentParksLater(env, rec, log, intents[0], intents[1..]);
      if !w.halted {
        WalkParksLater(env, w.rec, w.log, intents[1..]);
      }
    }
  }

  lemma IntentParksLater(env: Env, rec: TaskRecord, log: History, i: Intent, rest: seq<Intent>)
    requires Unattended(rec)
    ensures var w := RunIntent(env, rec, log, i, rest);
            && |log| <= |w.log| && (ParkedOnPeer(w.rec) ==> |log| < |w.log|)
            && (!w.halted ==> Unattended(w.rec))
  {
    IntentGrows(env, rec, log, i, rest);
  }

  lemma TurnParksLater(env: Env, rec: TaskRecord, log: History, intents: seq<Intent>)
    requires NamesPeers(env) && Unattended(rec)
    ensures var t := FinishTurn(env, rec, log, intents); ParkedOnPeer(t.rec) ==> |log| < |t.log|
  {
    WalkParksLater(env, rec, log, intents);
    WalkFlags(env, rec, log, intents);
    IntentsGrow(env, rec, log, intents);
    var w := RunIntents(env, rec, log, intents);
    if !w.halted {
      EndTurnUnattended(env, w.rec);
      if EndTurn(env, w.rec).Continue? {
        FirstEffectAsks(env, EndTurn(env, w.rec).rec, w.log);
      }
    }
  }

  lemma NewWaitIsLater(env: Env, s: Rest, input: string, read: PeerRead)
    requires NamesPeers(env) && ParkedOnPeer(s.rec) && !Reparks(env, s.rec, input, read)
    ensures var t := ResumeFromPeer(env, s.rec, s.log, input, read); ParkedOnPeer(t.rec) ==> |s.log| < |t.log|
  {
    if read.Read? && env.hasDelegator {
      var (o, ok) := OutcomeForPeer(s.rec.awaitingRole, read.result);
      var m := Message(Peer, if ok then o.output else WithoutOutputText(env, read.result));
      TurnParksLater(env, ClearPeer(s.rec.AddTurn(m)).(state := Working), s.log, s.rec.remaining);
    }
  }

  // ------------------------------------------------------------- whole runs

  lemma PeerMessageFlags(env: Env, s: Rest, seen: Option<TaskState>, input: string, read: PeerRead)
    requires NamesPeers(env) && ParkedOnPeer(s.rec) && Flagged(s.rec, seen)
    ensures var t := ResumeFromPeer(env, s.rec, s.log, input, read);
            && (t.log == s.log && ParkedOnPeer(t.rec) ==>
                  Flagged(t.rec, if read.Read? then Some(read.result.state) else seen))
            && (t.log != s.log ==> Flagged(t.rec, Replied(t.log)))
            && (!ParkedOnPeer(t.rec) ==> Unattended(t.rec))
  {
    WaitGoesOnOrEnds(env, s, input, read);
    if !Reparks(env, s.rec, input, read) {
      NewWaitIsLater(env, s, input, read);
    }
  }

  lemma VerdictIsLater(env: Env, s: Rest, input: string)
    requires s.rec.state == InputRequired && Unattended(s.rec)
    ensures var t := ResumeVerdict(env, s.rec, s.log, input);
            ParkedOnPeer(t.rec) ==> t.log != s.log
  {
    VerdictGrows(env, s, input);
  }

  /**
   * Over every run: a task parked on a peer is flagged as waiting on the peer's human exactly when that is
   * the state the peer was last seen in, and any other record says nothing of a peer.
   */
  lemma {:induction false} FlagIsWhatWasSeen(env: Env, rec: TaskRecord, schedule: seq<Event>)
    requires Faithful(env) && Fresh(rec)
    ensures Flagged(Reached(env, rec, schedule).rec, Seen(env, rec, schedule))
    decreases |schedule|
  {
    if schedule == [] {
      RoundsFlag(env, if rec.turns == [] then rec.AddTurn(Message(User, rec.input)) else rec, []);
    } else {
      var s, e := Reached(env, rec, Init(schedule)), Last(schedule);
      FlagIsWhatWasSeen(env, rec, Init(schedule));
      RunIsSound(env, rec, Init(schedule));
      if !s.rec.state.Terminal() && e.Arrives? {
        if s.rec.AwaitsPeer() {
          PeerMessageFlags(env, s, Seen(env, rec, Init(schedule)), e.input, e.read);
        } else {
          VerdictFlags(env, s, e.input);
          VerdictIsLater(env, s, e.input);
        }
      }
    }
  }
}
