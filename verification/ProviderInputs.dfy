/**
 * What every provider call of a run is given: the task's own input, or the text of a transcript that opens
 * with a user's turn and ends on a user's or a peer's; so by how much a call can exceed the budget.
 */
module ProviderInputs {
  import opened Basics
  import opened BoundedContext
  import opened Tasks
  import opened RiskPolicy
  import opened Machine
  import opened Soundness
  import opened TaskTheorems
  import opened TaskStore
  import opened FollowUps
  import opened ProviderText

  /** The input of one call. */
  ghost predicate CalledWith(env: Env, task: string, input: string) {
    input == task || exists turns :: Callable(turns) && input == Bounded(env, turns)
  }

  function Bounded(env: Env, turns: seq<Message>): string {
    ContextText(Assemble(turns, env.Budget(), TRUNCATION_MARKER).messages)
  }

  ghost predicate CallsOk(env: Env, task: string, log: History) {
    forall k | 0 <= k < |log| && log[k].Asked? :: CalledWith(env, task, log[k].input)
  }

  /** The transcript is one, and so were those of the calls so far. */
  ghost predicate Told(env: Env, rec: TaskRecord, log: History) {
    Chat(rec.turns) && CallsOk(env, rec.input, log)
  }

  lemma CallsAppend(env: Env, task: string, log: History, e: Effect)
    requires CallsOk(env, task, log) && (e.Asked? ==> CalledWith(env, task, e.input))
    ensures CallsOk(env, task, log + [e])
  {
  }

  lemma ActTells(env: Env, id: string, task: string, log: History, i: Intent)
    requires CallsOk(env, task, log)
    ensures CallsOk(env, task, Act(env, id, log, i).log)
  {
    var log1 := log + [Released(i)];
    CallsAppend(env, task, log, Released(i));
    CallsAppend(env, task, log1, Delegated(i.target, i.body, env.delegate(id, log1, i.target, i.body)));
    CallsAppend(env, task, log1, Sent(i.body, env.gateway(id, log1, i.body)));
  }

  lemma PerformTells(env: Env, rec: TaskRecord, log: History, i: Intent, rest: seq<Intent>)
    requires Told(env, rec, log)
    ensures var w := Perform(env, rec, log, i, rest); Told(env, w.rec, w.log)
  {
    ActTells(env, rec.taskId, rec.input, log, i);
    ChatGrows(rec.turns, Message(Peer, Act(env, rec.taskId, log, i).outcome.output));
  }

  lemma IntentTells(env: Env, rec: TaskRecord, log: History, i: Intent, rest: seq<Intent>)
    requires Told(env, rec, log)
    ensures var w := RunIntent(env, rec, log, i, rest); Told(env, w.rec, w.log)
  {
    PerformTells(env, rec, log, i, rest);
  }

  lemma {:induction false} WalkTells(env: Env, rec: TaskRecord, log: History, intents: seq<Intent>)
    requires Told(env, rec, log)
    ensures var w := RunIntents(env, rec, log, intents); Told(env, w.rec, w.log)
    decreases |intents|
  {
    if intents != [] {
      IntentTells(env, rec, log, intents[0], intents[1..]);
      var w := RunIntent(env, rec, log, intents[0], intents[1..]);
      if !w.halted {
        WalkTells(env, w.rec, w.log, intents[1..]);
      }
    }
  }

  lemma CallTells(env: Env, rec: TaskRecord, log: History, ans: ProviderAnswer)
    requires Told(env, rec, log) && Last(rec.turns).role != Assistant
    ensures var l := log + [Asked(RoundInput(env, rec), ans)];
            CallsOk(env, rec.input, l) && (ans.Ran? ==> Told(env, TakeAnswer(rec, ans), l))
  {
    if |rec.turns| > 1 {
      assert Callable(rec.turns) && RoundInput(env, rec) == Bounded(env, rec.turns);
    }
    CallsAppend(env, rec.input, log, Asked(RoundInput(env, rec), ans));
    if ans.Ran? {
      ChatGrows(rec.turns, Message(Assistant, ans.output));
    }
  }

  lemma EndTurnTells(env: Env, rec: TaskRecord, log: History)
    requires Told(env, rec, log)
    ensures var e := EndTurn(env, rec); Told(env, e.rec, log) && (e.Continue? ==> Last(e.rec.turns).role == Peer)
  {
  }

  lemma {:induction false} RoundsTell(env: Env, rec: TaskRecord, log: History)
    requires Told(env, rec, log) && Last(rec.turns).role != Assistant
    ensures var t := RunRounds(env, rec, log); Told(env, t.rec, t.log)
    decreases RoundsLeft(env, rec)
  {
    var ans := env.provider(rec.taskId, log, RoundInput(env, rec));
    var l := log + [Asked(RoundInput(env, rec), ans)];
    CallTells(env, rec, log, ans);
    if ans != RunFailed {
      WalkTells(env, TakeAnswer(rec, ans), l, TurnIntents(ans));
      var w := RunIntents(env, TakeAnswer(rec, ans), l, TurnIntents(ans));
      if !w.halted {
        EndTurnTells(env, w.rec, w.log);
        if EndTurn(env, w.rec).Continue? {
          RoundDecreases(env, rec, ans, l);
          RoundsTell(env, EndTurn(env, w.rec).rec, w.log);
        }
      }
    }
  }

  lemma TurnTells(env: Env, rec: TaskRecord, log: History, intents: seq<Intent>)
    requires Told(env, rec, log)
    ensures var t := FinishTurn(env, rec, log, intents); Told(env, t.rec, t.log)
  {
    WalkTells(env, rec, log, intents);
    var w := RunIntents(env, rec, log, intents);
    if !w.halted {
      EndTurnTells(env, w.rec, w.log);
      if EndTurn(env, w.rec).Continue? {
        RoundsTell(env, EndTurn(env, w.rec).rec, w.log);
      }
    }
  }

  lemma ActedOnTells(env: Env, rec: TaskRecord, a: Acted)
    requires Told(env, rec, a.log)
    ensures var t := AfterApproval(env, rec, a); Told(env, t.rec, t.log)
  {
    if a.ok && !a.outcome.parked {
      var next := TakeOutcome(RecordDelegation(rec, a.outcome), a.outcome).(pending := NO_INTENT, remaining := []);
      ChatGrows(rec.turns, Message(Peer, a.outcome.output));
      TurnTells(env, next, a.log, rec.remaining);
    }
  }

  lemma VerdictTells(env: Env, s: Rest, input: string)
    requires Told(env, s.rec, s.log)
    ensures var t := ResumeVerdict(env, s.rec, s.log, input); Told(env, t.rec, t.log)
  {
    if input == APPROVE {
      var l := s.log + [Approved(s.rec.pending)];
      CallsAppend(env, s.rec.input, s.log, Approved(s.rec.pending));
      ActTells(env, s.rec.taskId, s.rec.input, l, s.rec.pending);
      ActedOnTells(env, s.rec, Act(env, s.rec.taskId, l, s.rec.pending));
    }
  }

  lemma PeerReplyTells(env: Env, s: Rest, input: string, read: PeerRead)
    requires Told(env, s.rec, s.log) && s.rec.state == InputRequired
    ensures var t := ResumeFromPeer(env, s.rec, s.log, input, read); Told(env, t.rec, t.log)
  {
    var rec, log := s.rec, s.log;
    var next := ResumeFromPeer(env, rec, log, input, read);
    PeerMessageEnds(env, rec, log, input, read);
    if m: Message :| m.role == Peer
                     && next == FinishTurn(env, ClearPeer(rec.AddTurn(m)).(state := Working), log, rec.remaining) {
      ChatGrows(rec.turns, m);
      TurnTells(env, ClearPeer(rec.AddTurn(m)).(state := Working), log, rec.remaining);
    }
  }

  lemma StepTells(env: Env, s: Rest, e: Event)
    requires Sound(env, s) && Told(env, s.rec, s.log)
    ensures var t := Step(env, s, e); Told(env, t.rec, t.log)
  {
    if !s.rec.state.Terminal() && e.Arrives? {
      if s.rec.AwaitsPeer() {
        PeerReplyTells(env, s, e.input, e.read);
      } else {
        VerdictTells(env, s, e.input);
      }
    }
  }

  /** A task starts from nothing, or from what it inherits and its own first turn. */
  predicate Starts(rec: TaskRecord) {
    Fresh(rec) && (rec.turns != [] ==> Chat(rec.turns))
  }

  lemma {:induction false} RunTells(env: Env, rec: TaskRecord, schedule: seq<Event>)
    requires Faithful(env) && Starts(rec)
    ensures var t := Reached(env, rec, schedule); Told(env, t.rec, t.log) && t.rec.input == rec.input
    decreases |schedule|
  {
    if schedule == [] {
      var first := if rec.turns == [] then rec.AddTurn(Message(User, rec.input)) else rec;
      RoundsTell(env, first, []);
      RoundsGrow(env, first, []);
    } else {
      RunTells(env, rec, Init(schedule));
      RunIsSound(env, rec, Init(schedule));
      StepTells(env, Reached(env, rec, Init(schedule)), Last(schedule));
      StepGrows(env, Reached(env, rec, Init(schedule)), Last(schedule));
    }
  }

  predicate WithinExcess(env: Env, turns: seq<Message>) {
    var r := Assemble(turns, env.Budget(), TRUNCATION_MARKER).messages;
    2 * |Bounded(env, turns)| <= 2 * Cap(env.Budget(), TRUNCATION_MARKER) + 19 * |r| - 3
  }

  /** The task's own input, or a text that exceeds the budget by less than 9.5 bytes for each message in it. */
  ghost predicate WithinBounds(env: Env, task: string, input: string) {
    input == task || exists turns :: Callable(turns) && input == Bounded(env, turns) && WithinExcess(env, turns)
  }

  lemma CalledWithinBounds(env: Env, task: string, input: string)
    requires CalledWith(env, task, input) && env.Budget() != 0
    ensures WithinBounds(env, task, input)
  {
    if input != task {
      var turns :| Callable(turns) && input == Bounded(env, turns);
      TextExceedsByAtMost(turns, env.Budget(), TRUNCATION_MARKER);
    }
  }

  // ------------------------------------------------------ runs of a task file

  /** A refused follow-up has no transcript; any other task has one a follow-up may inherit. */
  ghost predicate RecordTold(env: Env, rec: TaskRecord, log: History) {
    (rec.turns == [] || Chat(rec.turns)) && CallsOk(env, rec.input, log)
  }

  ghost predicate AllTold(env: Env, f: File) {
    forall k | 0 <= k < |f.records| ::
      f.records[k].taskId in f.logs && RecordTold(env, f.records[k], f.logs[f.records[k].taskId])
  }

  lemma InheritanceIsChat(env: Env, prev: TaskRecord, m: Message)
    requires (prev.turns == [] || Chat(prev.turns)) && m.role == User
    ensures Chat(Inheritance(env, prev) + [m])
  {
    var turns := if prev.turns == [] then [Message(User, prev.input)] else prev.turns;
    var note := Message(System, OutcomeText(env, prev));
    NoteThenTurn(turns, note, m);
  }

  lemma NoteThenTurn(turns: seq<Message>, note: Message, m: Message)
    requires Chat(turns) && note.role == System && m.role == User
    ensures Chat(turns + [note] + [m])
  {
    var all := turns + [note] + [m];
    forall k | 0 <= k < |all| - 1
      ensures Follows(all[k].role, all[k + 1].role)
    {
      assert k < |turns| ==> all[k] == turns[k];
    }
  }

  lemma SeededStarts(env: Env, f: File, rec: TaskRecord, refs: seq<string>)
    requires AllTold(env, f) && rec == NewRecord(rec.taskId, rec.input, rec.contextId)
    ensures var seeding := Admit(env, f.records, rec, refs);
            seeding.Seeded? ==> Starts(seeding.rec) && seeding.rec.input == rec.input
                                && seeding.rec.taskId == rec.taskId
  {
    if |refs| == 1 && Admit(env, f.records, rec, refs).Seeded? {
      FindIsMember(f.records, refs[0]);
      var prev := Find(f.records, refs[0]).value;
      var k :| 0 <= k < |f.records| && f.records[k] == prev;
      InheritanceIsChat(env, prev.(taskId := refs[0]), Message(User, rec.input));
    }
  }

  lemma OpenedTells(env: Env, f: File, m: Move)
    requires Faithful(env) && Orderly(env, f) && AllTold(env, f) && Enabled(f, m) && m.Opens?
    ensures var s := OpenTask(env, f.records, m.id, m.input, m.contextId, m.refs); RecordTold(env, s.rec, s.log)
  {
    var rec := NewRecord(m.id, m.input, m.contextId);
    SeededStarts(env, f, rec, m.refs);
    var seeding := Admit(env, f.records, rec, m.refs);
    if seeding.Seeded? {
      assert Reached(env, seeding.rec, []) == Start(env, seeding.rec);
      RunTells(env, seeding.rec, []);
    }
  }

  lemma ToldAppended(env: Env, f: File, rec: TaskRecord, log: History)
    requires AllTold(env, f) && rec.taskId !in f.logs && RecordTold(env, rec, log)
    ensures AllTold(env, File(f.records + [rec], f.logs[rec.taskId := log]))
  {
    var g := File(f.records + [rec], f.logs[rec.taskId := log]);
    forall k | 0 <= k < |g.records|
      ensures g.records[k].taskId in g.logs && RecordTold(env, g.records[k], g.logs[g.records[k].taskId])
    {
      assert k < |f.records| ==> g.records[k] == f.records[k];
    }
  }

  lemma CancelledTells(env: Env, f: File, m: Move)
    requires Orderly(env, f) && AllTold(env, f) && Enabled(f, m) && m.Cancels?
    ensures AllTold(env, Moved(env, f, m))
  {
    WithoutFinds(f.records, m.id);
    var g := Moved(env, f, m);
    forall k | 0 <= k < |g.records|
      ensures g.records[k].taskId in g.logs && RecordTold(env, g.records[k], g.logs[g.records[k].taskId])
    {
      assert g.records[k] in f.records;
    }
  }

  lemma MoveTells(env: Env, f: File, m: Move)
    requires Faithful(env) && Orderly(env, f) && AllTold(env, f) && Enabled(f, m)
    ensures AllTold(env, Moved(env, f, m))
  {
    match m
    case Opens(_, _, _, _) =>
      OpensKeeps(env, f, m);
      OpenedRecord(env, f.records, m.id, m.input, m.contextId, m.refs);
      OpenedTells(env, f, m);
      var s := OpenTask(env, f.records, m.id, m.input, m.contextId, m.refs);
      ToldAppended(env, f, s.rec, s.log);
    case Delivers(_, _) => DeliveredTells(env, f, m);
    case Cancels(_) => CancelledTells(env, f, m);
  }

  lemma DeliveredTells(env: Env, f: File, m: Move)
    requires Faithful(env) && Orderly(env, f) && AllTold(env, f) && Enabled(f, m) && m.Delivers?
    ensures AllTold(env, Moved(env, f, m))
  {
    if Find(f.records, m.id).Some? {
      var k0 := DeliversReplaces(env, f, m);
      var s := Rest(f.records[k0], f.logs[m.id]);
      if s.rec.state.Terminal() {
        DeliversKeeps(env, f, m);
      } else {
        assert Settled(env, s.rec, s.log);
        NextIsSettled(env, s, m.event);
        StepTells(env, s, m.event);
      }
    }
  }

  lemma {:induction false} FileTells(env: Env, f: File, moves: seq<Move>)
    requires Faithful(env) && Orderly(env, f) && AllTold(env, f) && Legal(env, f, moves)
    ensures AllTold(env, After(env, f, moves))
    decreases |moves|
  {
    if moves != [] {
      MoveKeeps(env, f, moves[0]);
      MoveTells(env, f, moves[0]);
      FileTells(env, Moved(env, f, moves[0]), moves[1..]);
    }
  }

  /**
   * Over every run of a task file, follow-ups of follow-ups included, every provider call of every listed
   * task is given the task's input or a text that exceeds the budget, or the marker if that is longer, by
   * less than nine and a half bytes for each message in it.
   */
  lemma CallsExceedByAtMost(env: Env, moves: seq<Move>, k: nat, c: nat)
    requires Faithful(env) && env.Budget() != 0 && Legal(env, File([], map[]), moves)
    requires k < |After(env, File([], map[]), moves).records|
    ensures var f := After(env, File([], map[]), moves);
            var rec := f.records[k];
            && rec.taskId in f.logs
            && (c < |f.logs[rec.taskId]| && f.logs[rec.taskId][c].Asked? ==>
                  WithinBounds(env, rec.input, f.logs[rec.taskId][c].input))
  {
    FileTells(env, File([], map[]), moves);
    var f := After(env, File([], map[]), moves);
    var log := f.logs[f.records[k].taskId];
    assert RecordTold(env, f.records[k], log);
    if c < |log| && log[c].Asked? {
      CalledWithinBounds(env, f.records[k].input, log[c].input);
    }
  }

  // ----------------------------------------------- a run that reaches it

  const ASK_PEER := ActionIntent(DELEGATE_TASK, map["target" := Text("peer")])

  /** The provider always delegates, and the peer answers at once. */
  ghost predicate Chains(env: Env) {
    && env.hasDelegator && Classify(env, DELEGATE_TASK) == Permit
    && (forall id, log, input :: env.provider(id, log, input) == Ran("x", [ASK_PEER]))
    && (forall id, log, role, body ::
          env.delegate(id, log, role, body) == Opened(DelegationResult("p", Completed, "x")))
  }

  lemma PeerAsked()
    ensures TurnIntents(Ran("x", [ASK_PEER])) == [Intent(DELEGATE_TASK, "", "peer")]
    ensures TurnFinish(Ran("x", [ASK_PEER])) == None
  {
    assert Init([ASK_PEER]) == [] && Last([ASK_PEER]) == ASK_PEER;
    assert Actions([ASK_PEER]) == [ASK_PEER];
    assert [ASK_PEER][0].kind == DELEGATE_TASK;
  }

  /** The walk of such a turn: the peer is asked and answers. */
  lemma ChainWalk(env: Env, rec: TaskRecord, log: History)
    requires Chains(env)
    ensures var w := RunIntents(env, rec, log, [Intent(DELEGATE_TASK, "", "peer")]);
            && !w.halted
            && w.rec.turns == rec.turns + [RESULT] && w.rec.baseTurns == rec.baseTurns
            && w.rec.finishRequested == rec.finishRequested
  {
    var i := Intent(DELEGATE_TASK, "", "peer");
    assert env.delegate(rec.taskId, log + [Released(i)], "peer", "") == Opened(DelegationResult("p", Completed, "x"));
    assert [i][1..] == [];
  }

  /** Such a turn below the cap is followed by another round. */
  lemma ChainGoesOn(env: Env, mid: TaskRecord)
    requires mid.turns != [] && Last(mid.turns) == RESULT && !mid.finishRequested && mid.Rounds() < env.MaxRounds()
    ensures EndTurn(env, mid) == Continue(mid.(finishRequested := false))
  {
    assert mid.(finishRequested := false).Rounds() == mid.Rounds();
  }

  lemma ChainRound(env: Env, rec: TaskRecord, log: History) returns (next: TaskRecord, l: History)
    requires Chains(env) && rec.baseTurns <= |rec.turns| && rec.Rounds() + 1 < env.MaxRounds()
    ensures RunRounds(env, rec, log) == RunRounds(env, next, l)
    ensures next.baseTurns == rec.baseTurns && next.turns == rec.turns + [ANSWER] + [RESULT]
    ensures next.Rounds() == rec.Rounds() + 1
  {
    var ans := Ran("x", [ASK_PEER]);
    var asked := log + [Asked(RoundInput(env, rec), ans)];
    assert env.provider(rec.taskId, log, RoundInput(env, rec)) == ans;
    PeerAsked();
    AnswerTakesRound(rec, ans);
    ChainWalk(env, TakeAnswer(rec, ans), asked);
    WalkKeepsRounds(env, TakeAnswer(rec, ans), asked, TurnIntents(ans));
    var w := RunIntents(env, TakeAnswer(rec, ans), asked, TurnIntents(ans));
    ChainGoesOn(env, w.rec);
    next, l := w.rec.(finishRequested := false), w.log;
    assert next.Rounds() == w.rec.Rounds();
  }

  ghost predicate Asks(log: History, input: string) {
    exists k | 0 <= k < |log| :: log[k].Asked? && log[k].input == input
  }

  /** After m more rounds the transcript has grown m times by an answer and a result. */
  lemma ChainRounds(env: Env, rec: TaskRecord, log: History, m: nat, grown: nat -> seq<Message>)
    returns (last: TaskRecord, l: History)
    requires Chains(env) && rec.baseTurns <= |rec.turns| && rec.Rounds() + m < env.MaxRounds()
    requires grown(0) == rec.turns && forall k: nat | k > 0 :: grown(k) == grown(k - 1) + [ANSWER] + [RESULT]
    ensures RunRounds(env, rec, log) == RunRounds(env, last, l)
    ensures last.turns == grown(m)
  {
    var goal := RunRounds(env, rec, log);
    last, l := rec, log;
    for k := 0 to m
      invariant goal == RunRounds(env, last, l)
      invariant last.baseTurns == rec.baseTurns <= |last.turns| && last.turns == grown(k)
      invariant last.Rounds() == rec.Rounds() + k
    {
      last, l := ChainRound(env, last, l);
      assert grown(k + 1) == grown(k) + [ANSWER] + [RESULT];
    }
  }

  function Grown(first: Message, k: nat): seq<Message> {
    [first] + Repeated([ANSWER, RESULT], k)
  }

  lemma GrownBy(first: Message, k: nat)
    requires k > 0
    ensures Grown(first, k) == Grown(first, k - 1) + [ANSWER] + [RESULT]
  {
    RepeatedAppend([ANSWER, RESULT], k - 1);
    assert [ANSWER] + [RESULT] == [ANSWER, RESULT];
  }

  lemma GrownFrom(first: Message) returns (grown: nat -> seq<Message>)
    ensures grown(0) == [first] && forall k: nat :: grown(k) == Grown(first, k)
    ensures forall k: nat | k > 0 :: grown(k) == grown(k - 1) + [ANSWER] + [RESULT]
  {
    grown := (k: nat) => Grown(first, k);
    assert grown(0) == [first] + [];
    forall k: nat | k > 0
      ensures grown(k) == grown(k - 1) + [ANSWER] + [RESULT]
    {
      GrownBy(first, k);
    }
  }

  /** A call that is made with these turns, and where it is made. */
  lemma CalledWithTurns(env: Env, rec: TaskRecord, log: History, turns: seq<Message>)
    requires rec.turns == turns && |turns| > 1
    ensures Asks(RunRounds(env, rec, log).log, Bounded(env, turns))
  {
    FirstEffectAsks(env, rec, log);
    assert RoundInput(env, rec) == Bounded(env, turns);
  }

  lemma CalledThroughRounds(env: Env, rec: TaskRecord, n: nat)
    requires Chains(env) && n > 0 && n < env.MaxRounds() && rec.turns == [] && rec.baseTurns == 0
    ensures Asks(Start(env, rec).log, Bounded(env, Grown(Message(User, rec.input), n)))
  {
    var first := rec.AddTurn(Message(User, rec.input));
    assert first.turns == [Message(User, rec.input)];
    var grown := GrownFrom(Message(User, rec.input));
    var last, l := ChainRounds(env, first, [], n, grown);
    assert grown(n) == Grown(Message(User, rec.input), n);
    RoundsMeasure(n);
    CalledWithTurns(env, last, l, grown(n));
  }

  lemma ExcessOfRounds(env: Env, input: string, n: nat)
    requires env.Budget() == |TRUNCATION_MARKER| + 2 * n && |input| > |TRUNCATION_MARKER|
    ensures |Bounded(env, Grown(Message(User, input), n))| == env.Budget() + 19 * n + 8
  {
    var turns := Grown(Message(User, input), n);
    RoundsMeasure(n);
    assert turns[1..] == Repeated([ANSWER, RESULT], n);
    RestIsKept(turns, env.Budget(), TRUNCATION_MARKER);
  }

  /** A company of that kind with a budget for n rounds' contents. */
  function Chain(n: nat): (env: Env)
    ensures env.MaxRounds() == n + 1 && env.Budget() == |TRUNCATION_MARKER| + 2 * n && Chains(env)
  {
    Env("agent", map[DELEGATE_TASK := Policy("safe", ["agent"])], n + 1, |TRUNCATION_MARKER| + 2 * n, 0,
        false, true, true, s => s,
        (id, log, input) => Ran("x", [ASK_PEER]),
        (id, log, body) => false,
        (id, log, role, body) => Opened(DelegationResult("p", Completed, "x")))
  }

  /** For every number of rounds there is a task one of whose calls exceeds its budget by exactly that much. */
  lemma RunReachesExcess(n: nat, rec: TaskRecord)
    requires n > 0 && Starts(rec) && rec.turns == [] && |rec.input| > |TRUNCATION_MARKER|
    ensures exists input :: Asks(Start(Chain(n), rec).log, input) && |input| == Chain(n).Budget() + 19 * n + 8
  {
    CalledThroughRounds(Chain(n), rec, n);
    ExcessOfRounds(Chain(n), rec.input, n);
  }
}
