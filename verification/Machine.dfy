/**
 * The task machine as a function: what one execution makes of a task record and its history, from
 * the moment it starts until it rests (parked or terminal). The Supervisor class is proved against
 * these functions; everything the source promises is proved about them.
 */
module Machine {
  import opened Basics
  import opened BoundedContext
  import opened Tasks
  import opened RiskPolicy

  const PEER_TIMEOUT := "peer-wait-timeout"
  const APPROVE := "approve"

  // ---------------------------------------------------------------- actions

  predicate NamesPeer(reply: DelegateAnswer) {
    reply.Opened? ==> reply.result.peerTaskId != ""
  }

  /** The Delegator contract: every task it opens has an id. */
  ghost predicate NamesPeers(env: Env) {
    forall id, log, role, body :: NamesPeer(env.delegate(id, log, role, body))
  }

  datatype Outcome = Outcome(
    output: string, delegated: bool, parked: bool,
    peerRole: string, peerTaskId: string, peerApproval: bool)

  const NO_OUTCOME := Outcome("", false, false, "", "", false)

  /** An outcome and whether it is free of error: a failed delegation may still name its peer. */
  datatype Acted = Acted(outcome: Outcome, ok: bool, log: History)

  /** Maps an observed peer state onto the delegating task's fate. */
  function OutcomeForPeer(role: string, res: DelegationResult): (Outcome, bool) {
    if res.state == Completed then
      (Outcome(res.output, true, false, role, res.peerTaskId, false), true)
    else if res.state.Terminal() then
      (Outcome("", false, false, role, res.peerTaskId, false), false)
    else if res.state.Running() then
      (Outcome("", false, true, role, res.peerTaskId, false), true)
    else if res.state == InputRequired then
      (Outcome("", false, true, role, res.peerTaskId, true), true)
    else
      (NO_OUTCOME, false)
  }

  function Delegate(env: Env, id: string, log: History, role: string, body: string): Acted {
    if !env.hasDelegator || role == "" then
      Acted(NO_OUTCOME, false, log)
    else
      var reply := env.delegate(id, log, role, body);
      var log1 := log + [Delegated(role, body, reply)];
      if reply == DelegateFailed then
        Acted(NO_OUTCOME, false, log1)
      else
        var (o, ok) := OutcomeForPeer(role, reply.result);
        if ok && o.parked && !env.hasResumer then Acted(NO_OUTCOME, false, log1) else Acted(o, ok, log1)
  }

  /** Spends a token on an intent and performs it. */
  function Act(env: Env, id: string, log: History, i: Intent): Acted {
    var log1 := log + [Released(i)];
    if i.kind == DELEGATE_TASK then
      Delegate(env, id, log1, i.target, i.body)
    else if !env.hasGateway then
      Acted(NO_OUTCOME, false, log1)
    else
      var ok := env.gateway(id, log1, i.body);
      Acted(NO_OUTCOME, ok, log1 + [Sent(i.body, ok)])
  }

  /** A park on a delegator that keeps its contract names the peer. */
  lemma ParksOnNamed(env: Env, id: string, log: History, i: Intent)
    requires NamesPeers(env)
    ensures var a := Act(env, id, log, i); a.ok && a.outcome.parked ==> a.outcome.peerTaskId != ""
  {
    assert NamesPeer(env.delegate(id, log + [Released(i)], i.target, i.body));
  }

  function RecordDelegation(rec: TaskRecord, o: Outcome): TaskRecord {
    if o.peerTaskId == "" then rec
    else rec.(delegations := rec.delegations + [Delegation(o.peerRole, o.peerTaskId)])
  }

  function ParkOnPeer(rec: TaskRecord, o: Outcome, remaining: seq<Intent>): TaskRecord {
    rec.(
    awaitingRole := o.peerRole,
    awaitingTaskId := o.peerTaskId,
    awaitingApproval := o.peerApproval,
    remaining := remaining,
    state := InputRequired)
  }

  /** What a successful action leaves on the record when the task does not park. */
  function TakeOutcome(rec: TaskRecord, o: Outcome): TaskRecord {
    if o.delegated then rec.AddTurn(Message(Peer, o.output)) else rec
  }

  // ------------------------------------------------------- intents of a turn

  datatype Walk = Walk(rec: TaskRecord, log: History, halted: bool)

  /** What becomes of the walk once an intent has been acted on; `rest` is what is queued behind it. */
  function AfterAction(rec: TaskRecord, a: Acted, rest: seq<Intent>): Walk {
    var rec1 := RecordDelegation(rec, a.outcome);
    if !a.ok then
      Walk(rec1.(state := Failed, remaining := []), a.log, true)
    else if a.outcome.parked then
      Walk(ParkOnPeer(rec1, a.outcome, rest), a.log, true)
    else
      Walk(TakeOutcome(rec1, a.outcome), a.log, false)
  }

  /** Performs an intent that may be performed. */
  function Perform(env: Env, rec: TaskRecord, log: History, i: Intent, rest: seq<Intent>): Walk {
    AfterAction(rec, Act(env, rec.taskId, log, i), rest)
  }

  /** Classifies one intent and routes it. */
  function RunIntent(env: Env, rec: TaskRecord, log: History, i: Intent, rest: seq<Intent>): Walk {
    match Classify(env, i.kind)
    case HardDeny =>
      Walk(rec.(state := Rejected, remaining := []), log, true)
    case Escalate =>
      Walk(rec.(state := InputRequired, pending := i, remaining := rest), log, true)
    case Permit =>
      Perform(env, rec, log, i, rest)
  }

  /** Runs intents in the order they were emitted, until one halts the walk. */
  function RunIntents(env: Env, rec: TaskRecord, log: History, intents: seq<Intent>): Walk
    decreases |intents|
  {
    if intents == [] then
      Walk(rec, log, false)
    else
      var w := RunIntent(env, rec, log, intents[0], intents[1..]);
      if w.halted then w else RunIntents(env, w.rec, w.log, intents[1..])
  }

  // ----------------------------------------------------------------- rounds

  /** The intents that are actions, in emission order. */
  function Actions(intents: seq<ActionIntent>): seq<ActionIntent> {
    if intents == [] then []
    else
      Actions(Init(intents)) + if Last(intents).kind == FINISH_TASK then [] else [Last(intents)]
  }

  /** The answer of the first finish_task, if there is one. */
  function FinishAnswer(intents: seq<ActionIntent>): Option<string> {
    if intents == [] then None
    else if FinishAnswer(Init(intents)).Some? then FinishAnswer(Init(intents))
    else if Last(intents).kind == FINISH_TASK then Some(StringArg(Last(intents), "body"))
    else None
  }

  predicate HasDelegation(actions: seq<ActionIntent>) {
    exists k | 0 <= k < |actions| :: actions[k].kind == DELEGATE_TASK
  }

  function ToPending(actions: seq<ActionIntent>): (p: seq<Intent>)
    ensures |p| == |actions|
  {
    seq(|actions|, k requires 0 <= k < |actions| =>
      Intent(actions[k].kind, StringArg(actions[k], "body"), StringArg(actions[k], "target")))
  }

  /** What the turn asks for: the intents the walk is given. */
  function TurnIntents(ans: ProviderAnswer): seq<Intent>
    requires ans.Ran?
  {
    ToPending(Actions(ans.intents))
  }

  /** A finish counts only when the same turn does not delegate. */
  function TurnFinish(ans: ProviderAnswer): Option<string>
    requires ans.Ran?
  {
    if HasDelegation(Actions(ans.intents)) then None else FinishAnswer(ans.intents)
  }

  /** The output a turn leaves: a non-empty finish answer, else the provider's text. */
  function TurnOutput(ans: ProviderAnswer): string
    requires ans.Ran?
  {
    var f := TurnFinish(ans);
    if f.Some? && f.value != "" then f.value else ans.output
  }

  /** The provider's input: the plain task input first, the bounded transcript later. */
  function RoundInput(env: Env, rec: TaskRecord): string {
    if |rec.turns| > 1 then
      ContextText(Assemble(rec.turns, env.Budget(), TRUNCATION_MARKER).messages)
    else rec.input
  }

  function TakeAnswer(rec: TaskRecord, ans: ProviderAnswer): TaskRecord
    requires ans.Ran?
  {
    rec.AddTurn(Message(Assistant, ans.output))
       .(output := TurnOutput(ans), finishRequested := TurnFinish(ans).Some?)
  }

  datatype TurnEnd = Finish(rec: TaskRecord) | Exhausted(rec: TaskRecord) | Continue(rec: TaskRecord)

  function RoundLimitText(env: Env): string {
    "supervisor: provider round limit (" + Decimal(env.MaxRounds()) + ") exhausted after delegation"
  }

  /** The end-of-turn decision: only a turn that took in a peer result goes on. */
  function EndTurn(env: Env, rec: TaskRecord): TurnEnd {
    var r := rec.(finishRequested := false);
    if rec.finishRequested || r.turns == [] || Last(r.turns).role != Peer then
      Finish(r.(state := Completed))
    else if r.Rounds() >= env.MaxRounds() then
      Exhausted(r.(output := RoundLimitText(env), state := Failed))
    else
      Continue(r)
  }

  /** A task at rest: no execution of it is live. */
  datatype Rest = Rest(rec: TaskRecord, log: History)

  /** Bounds the provider calls still possible. */
  function RoundsLeft(env: Env, rec: TaskRecord): nat {
    var gap := if |rec.turns| < rec.baseTurns then rec.baseTurns - |rec.turns| else 0;
    gap + if rec.Rounds() < env.MaxRounds() then env.MaxRounds() - rec.Rounds() else 0
  }

  /** The provider loop from a call on. */
  function RunRounds(env: Env, rec: TaskRecord, log: History): Rest
    decreases RoundsLeft(env, rec)
  {
    var input := RoundInput(env, rec);
    var ans := env.provider(rec.taskId, log, input);
    var log1 := log + [Asked(input, ans)];
    if ans == RunFailed then
      Rest(rec.(state := Failed), log1)
    else
      var rec1 := TakeAnswer(rec, ans);
      var w := RunIntents(env, rec1, log1, TurnIntents(ans));
      if w.halted then
        Rest(w.rec, w.log)
      else
        match EndTurn(env, w.rec)
        case Finish(r) => Rest(r, w.log)
        case Exhausted(r) => Rest(r, w.log)
        case Continue(r) => RoundDecreases(env, rec, ans, log1); RunRounds(env, r, w.log)
  }

  /** The provider loop entered at the end of a turn whose intents have all run. */
  function AfterTurn(env: Env, rec: TaskRecord, log: History): Rest {
    match EndTurn(env, rec)
    case Finish(r) => Rest(r, log)
    case Exhausted(r) => Rest(r, log)
    case Continue(r) => RunRounds(env, r, log)
  }

  /** A walk followed by the end of the turn. */
  function FinishTurn(env: Env, rec: TaskRecord, log: History, intents: seq<Intent>): Rest {
    var w := RunIntents(env, rec, log, intents);
    if w.halted then Rest(w.rec, w.log) else AfterTurn(env, w.rec, w.log)
  }

  // -------------------------------------------------- entries of an execution

  /** Starts the provider loop from its first round. */
  function ExecuteWithPolicy(env: Env, rec: TaskRecord, log: History): Rest {
    var rec1 := if rec.turns == [] then rec.AddTurn(Message(User, rec.input)) else rec;
    RunRounds(env, rec1, log)
  }

  /** What becomes of a task once its approved intent has been acted on. */
  function AfterApproval(env: Env, rec: TaskRecord, a: Acted): Rest {
    var rec1 := RecordDelegation(rec, a.outcome);
    if !a.ok then
      Rest(rec1.(state := Failed), a.log)
    else if a.outcome.parked then
      Rest(ParkOnPeer(rec1.(pending := NO_INTENT), a.outcome, rec.remaining), a.log)
    else
      FinishTurn(env, TakeOutcome(rec1, a.outcome).(pending := NO_INTENT, remaining := []), a.log, rec.remaining)
  }

  /** Resumes a task parked on a human verdict. */
  function ResumeVerdict(env: Env, rec: TaskRecord, log: History, input: string): Rest {
    if input != APPROVE then
      Rest(rec.(state := Rejected), log)
    else
      AfterApproval(env, rec, Act(env, rec.taskId, log + [Approved(rec.pending)], rec.pending))
  }

  function ClearPeer(rec: TaskRecord): TaskRecord {
    rec.(awaitingRole := "", awaitingTaskId := "", awaitingApproval := false, remaining := [])
  }

  function WithoutOutputText(env: Env, res: DelegationResult): string {
    "peer task " + env.quote(res.peerTaskId) + " ended in state " + res.state.Name() + " without output"
  }

  /** The message finds the wait going on: the task parks again. */
  predicate Reparks(env: Env, rec: TaskRecord, input: string, read: PeerRead) {
    env.hasDelegator &&
    (read == ReadFailed ||
     var (o, ok) := OutcomeForPeer(rec.awaitingRole, read.result);
     ok && o.parked && input != PEER_TIMEOUT)
  }

  /** The peer has ended: its result becomes a turn, and the rest of the parked turn runs. */
  function Freed(env: Env, rec: TaskRecord, log: History, text: string): Rest {
    FinishTurn(env, ClearPeer(rec.AddTurn(Message(Peer, text))).(state := Working), log, rec.remaining)
  }

  function WaitFailed(rec: TaskRecord, log: History): Rest {
    Rest(ClearPeer(rec).(state := Failed), log)
  }

  /** What a reading of the peer makes of the wait. */
  function AfterReading(env: Env, rec: TaskRecord, log: History, input: string, res: DelegationResult): Rest {
    var (o, ok) := OutcomeForPeer(rec.awaitingRole, res);
    var judged := !ok && rec.awaitingApproval && res.state.Terminal();
    if !ok && !judged then WaitFailed(rec, log)
    else if ok && o.parked && input == PEER_TIMEOUT then WaitFailed(rec, log)
    else if ok && o.parked then Rest(rec.(awaitingApproval := o.peerApproval, state := InputRequired), log)
    else Freed(env, rec, log, if judged then WithoutOutputText(env, res) else o.output)
  }

  /** Resumes a task parked on a peer, given what reading the peer answers now. */
  function ResumeFromPeer(env: Env, rec: TaskRecord, log: History, input: string, read: PeerRead): Rest {
    if !env.hasDelegator then WaitFailed(rec, log)
    else if read == ReadFailed then Rest(rec.(state := InputRequired), log)
    else AfterReading(env, rec, log, input, read.result)
  }

  /** A message carrying the id of an existing task. */
  function Resume(env: Env, s: Rest, input: string, read: PeerRead): Rest {
    if s.rec.AwaitsPeer() then ResumeFromPeer(env, s.rec, s.log, input, read)
    else if !s.rec.AwaitsVerdict() then ExecuteWithPolicy(env, s.rec.(state := Working), s.log)
    else ResumeVerdict(env, s.rec, s.log, input)
  }

  // -------------------------------------------------------------- whole runs

  /**
   * What can happen to a task at rest: a message (a verdict, a watcher's notice or anything else a
   * caller sends, with what reading the peer would answer at that moment), or a restart of the
   * process, which keeps nothing but the record.
   */
  datatype Event = Arrives(input: string, read: PeerRead) | Restarts

  /** a2asrv delivers no message to a terminal task. */
  function Step(env: Env, s: Rest, e: Event): Rest {
    if s.rec.state.Terminal() || e.Restarts? then s else Resume(env, s, e.input, e.read)
  }

  function Run(env: Env, s: Rest, schedule: seq<Event>): Rest {
    if schedule == [] then s else Step(env, Run(env, s, Init(schedule)), Last(schedule))
  }

  /** The record a new task starts from. */
  predicate Fresh(rec: TaskRecord) {
    && rec.state == Working
    && rec.pending == NO_INTENT && rec.remaining == []
    && rec.awaitingTaskId == "" && rec.awaitingRole == "" && !rec.awaitingApproval
    && !rec.finishRequested && rec.delegations == [] && rec.output == ""
    && (rec.turns == [] ==> rec.baseTurns == 0)
    && (rec.turns != [] ==> rec.baseTurns == |rec.turns| - 1 && Last(rec.turns) == Message(User, rec.input))
  }

  function Start(env: Env, rec: TaskRecord): Rest {
    ExecuteWithPolicy(env, rec, [])
  }

  // ------------------------------------------------------ why rounds are finite

  /** One intent appends a peer turn or none, and leaves the inherited part alone. */
  lemma IntentAddsPeerTurn(env: Env, rec: TaskRecord, log: History, i: Intent, rest: seq<Intent>)
    ensures var r := RunIntent(env, rec, log, i, rest).rec;
            && r.baseTurns == rec.baseTurns
            && (r.turns == rec.turns || exists m: Message :: m.role == Peer && r.turns == rec.turns + [m])
  {
    if Classify(env, i.kind) == Permit {
      var o := Act(env, rec.taskId, log, i).outcome;
      var m := Message(Peer, o.output);
      assert m.role == Peer;
    }
  }

  /** The walk appends peer turns only, so it spends no round. */
  lemma {:induction false} WalkKeepsRounds(env: Env, rec: TaskRecord, log: History, intents: seq<Intent>)
    ensures var r := RunIntents(env, rec, log, intents).rec;
            && r.baseTurns == rec.baseTurns
            && |r.turns| >= |rec.turns|
            && (rec.baseTurns <= |rec.turns| ==> r.Rounds() == rec.Rounds())
    decreases |intents|
  {
    if intents != [] {
      IntentAddsPeerTurn(env, rec, log, intents[0], intents[1..]);
      var w := RunIntent(env, rec, log, intents[0], intents[1..]);
      if rec.baseTurns <= |rec.turns| && w.rec.turns != rec.turns {
        var m: Message :| m.role == Peer && w.rec.turns == rec.turns + [m];
        CountTurn(rec, m);
      }
      if !w.halted {
        WalkKeepsRounds(env, w.rec, w.log, intents[1..]);
      }
    }
  }

  /** A turn that has spent a round and may go on leaves fewer rounds. */
  lemma OneRoundLess(env: Env, rec: TaskRecord, mid: TaskRecord)
    requires mid.baseTurns == rec.baseTurns && |mid.turns| > |rec.turns|
    requires rec.baseTurns <= |rec.turns| ==> mid.Rounds() == rec.Rounds() + 1
    ensures EndTurn(env, mid).Continue? ==> RoundsLeft(env, EndTurn(env, mid).rec) < RoundsLeft(env, rec)
  {
    if EndTurn(env, mid).Continue? {
      var r := EndTurn(env, mid).rec;
      assert r.turns == mid.turns && r.Rounds() == mid.Rounds() < env.MaxRounds();
    }
  }

  lemma AnswerTakesRound(rec: TaskRecord, ans: ProviderAnswer)
    requires ans.Ran?
    ensures var rec1 := TakeAnswer(rec, ans);
            && rec1.baseTurns == rec.baseTurns && |rec1.turns| == |rec.turns| + 1
            && (rec.baseTurns <= |rec.turns| ==> rec1.Rounds() == rec.Rounds() + 1)
  {
    if rec.baseTurns <= |rec.turns| {
      CountTurn(rec, Message(Assistant, ans.output));
    }
  }

  lemma TurnTakesRound(env: Env, rec: TaskRecord, ans: ProviderAnswer, log: History)
    requires ans.Ran?
    ensures var mid := RunIntents(env, TakeAnswer(rec, ans), log, TurnIntents(ans)).rec;
            && mid.baseTurns == rec.baseTurns && |mid.turns| > |rec.turns|
            && (rec.baseTurns <= |rec.turns| ==> mid.Rounds() == rec.Rounds() + 1)
  {
    AnswerTakesRound(rec, ans);
    WalkKeepsRounds(env, TakeAnswer(rec, ans), log, TurnIntents(ans));
  }

  lemma RoundDecreases(env: Env, rec: TaskRecord, ans: ProviderAnswer, log: History)
    requires ans.Ran?
    ensures var w := RunIntents(env, TakeAnswer(rec, ans), log, TurnIntents(ans));
            && EndTurn(env, w.rec).Continue?
            ==> RoundsLeft(env, EndTurn(env, w.rec).rec) < RoundsLeft(env, rec)
  {
    TurnTakesRound(env, rec, ans, log);
    var w := RunIntents(env, TakeAnswer(rec, ans), log, TurnIntents(ans));
    OneRoundLess(env, rec, w.rec);
  }
}
