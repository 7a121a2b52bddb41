/**
 * Park and resume are invisible. A task is first described as one straight-line program that simply
 * blocks for every human verdict and for every peer's final outcome; it has no record, no pending or
 * remaining intents and no finish flag, only local variables. Then every schedule of messages, early
 * or late, and restarts is shown to drive the parking machine to exactly what that program computes.
 */
module StraightLine {
  import opened Basics
  import opened BoundedContext
  import opened Tasks
  import opened Machine

  /** What a blocked program waits for, in the order it gets it. */
  datatype Answer =
    | Verdict(approve: bool)
    | PeerEnded(result: DelegationResult, escalated: bool)  // escalated: the peer was last seen waiting on its human
    | PeerGaveUp                                            // the wait was ended without a result

  datatype Status = Going | Blocked | Ended(state: TaskState)

  /** The program's local variables, and the answers it has not consumed yet. */
  datatype Frame = Frame(
    status: Status, output: string, turns: seq<Message>, delegations: seq<Delegation>,
    log: History, answers: seq<Answer>)
  {
    function Hear(text: string): Frame {
      this.(turns := turns + [Message(Peer, text)])
    }

    function End(state: TaskState): Frame {
      this.(status := Ended(state))
    }

    function Do(e: Effect): Frame {
      this.(log := log + [e])
    }
  }

  // The program reads the company's settings for itself.

  function RoundCap(env: Env): nat {
    if env.maxRounds > 0 then env.maxRounds else 8
  }

  function Allowance(env: Env): int {
    if env.contextBudget != 0 then env.contextBudget else env.providerBudget
  }

  predicate Over(state: TaskState) {
    state == Completed || state == Failed || state == Rejected || state == Canceled
  }

  predicate Pending(state: TaskState) {
    state == Submitted || state == Working || state == InputRequired
  }

  function NothingSaid(env: Env, res: DelegationResult): string {
    "peer task " + env.quote(res.peerTaskId) + " ended in state " + res.state.Name() + " without output"
  }

  function TooManyRounds(env: Env): string {
    "supervisor: provider round limit (" + Decimal(RoundCap(env)) + ") exhausted after delegation"
  }

  /** Blocks until the peer has ended; its result is the next turn, an unexplained failure ends the task. */
  function AwaitPeer(env: Env, f: Frame): Frame {
    if f.answers == [] then f.(status := Blocked)
    else
      var g := f.(answers := f.answers[1..]);
      match f.answers[0]
      case PeerEnded(res, escalated) =>
        if res.state == Completed then g.Hear(res.output)
        else if Over(res.state) && escalated then g.Hear(NothingSaid(env, res))
        else g.End(Failed)
      case _ => g.End(Failed)
  }

  /** Opens a task on a peer and waits for it. */
  function CallPeer(env: Env, id: string, f: Frame, role: string, body: string): Frame {
    if !env.hasDelegator || role == "" then f.End(Failed)
    else
      var reply := env.delegate(id, f.log, role, body);
      var g := f.Do(Delegated(role, body, reply));
      if reply == DelegateFailed then g.End(Failed)
      else
        var res := reply.result;
        var named := if res.peerTaskId == "" then g
                     else g.(delegations := g.delegations + [Delegation(role, res.peerTaskId)]);
        if res.state == Completed then named.Hear(res.output)
        else if Over(res.state) then named.End(Failed)
        else if Pending(res.state) && env.hasResumer then AwaitPeer(env, named)
        else g.End(Failed)
  }

  function CarryOut(env: Env, id: string, f: Frame, i: Intent): Frame {
    var g := f.Do(Released(i));
    if i.kind == "delegate_task" then CallPeer(env, id, g, i.target, i.body)
    else if !env.hasGateway then g.End(Failed)
    else
      var ok := env.gateway(id, g.log, i.body);
      if ok then g.Do(Sent(i.body, ok)) else g.Do(Sent(i.body, ok)).End(Failed)
  }

  /** Blocks for the human before a risky intent. */
  function AskHuman(env: Env, id: string, f: Frame, i: Intent): Frame {
    if f.answers == [] then f.(status := Blocked)
    else if f.answers[0] == Verdict(true) then
      CarryOut(env, id, f.(answers := f.answers[1..]).Do(Approved(i)), i)
    else f.(answers := f.answers[1..]).End(Rejected)
  }

  function Handle(env: Env, id: string, f: Frame, i: Intent): Frame {
    if i.kind !in env.policies || env.role !in env.policies[i.kind].allowedRoles then f.End(Rejected)
    else if env.policies[i.kind].risk == "risky" then AskHuman(env, id, f, i)
    else CarryOut(env, id, f, i)
  }

  function HandleAll(env: Env, id: string, f: Frame, intents: seq<Intent>): Frame
    decreases |intents|
  {
    if f.status != Going || intents == [] then f
    else HandleAll(env, id, Handle(env, id, f, intents[0]), intents[1..])
  }

  /** A task's constants: who it is, what it was asked, how much transcript it inherited. */
  datatype Job = Job(id: string, input: string, inherited: nat)

  function RoundsSpent(job: Job, f: Frame): nat {
    if job.inherited > |f.turns| then 0 else AssistantTurns(f.turns[job.inherited..])
  }

  function CallsLeft(env: Env, job: Job, f: Frame): nat {
    var gap := if |f.turns| < job.inherited then job.inherited - |f.turns| else 0;
    gap + if RoundsSpent(job, f) < RoundCap(env) then RoundCap(env) - RoundsSpent(job, f) else 0
  }

  function ProgramInput(env: Env, job: Job, f: Frame): string {
    if |f.turns| > 1 then ContextText(Assemble(f.turns, Allowance(env), TRUNCATION_MARKER).messages) else job.input
  }

  function Answered(f: Frame, ans: ProviderAnswer): Frame
    requires ans.Ran?
  {
    f.(turns := f.turns + [Message(Assistant, ans.output)], output := TurnOutput(ans))
  }

  /** Asks the provider, handles everything it asks for, and goes round again after peer results. */
  function Rounds(env: Env, job: Job, f: Frame): Frame
    decreases CallsLeft(env, job, f), 1
  {
    var input := ProgramInput(env, job, f);
    var ans := env.provider(job.id, f.log, input);
    var g := f.Do(Asked(input, ans));
    if ans == RunFailed then g.End(Failed)
    else
      var h := Answered(g, ans);
      var k := HandleAll(env, job.id, h, TurnIntents(ans));
      HandleAllKeepsRounds(env, job, h, TurnIntents(ans));
      CallCounts(job, f, Message(Assistant, ans.output));
      if k.status != Going then k
      else if TurnFinish(ans).Some? || k.turns == [] || Last(k.turns).role != Peer then k.End(Completed)
      else if RoundsSpent(job, k) >= RoundCap(env) then k.(output := TooManyRounds(env)).End(Failed)
      else Rounds(env, job, k)
  }

  /** The whole task, from its first turn. */
  function Program(env: Env, rec: TaskRecord, answers: seq<Answer>): Frame {
    var turns := if rec.turns == [] then [Message(User, rec.input)] else rec.turns;
    Rounds(env, Job(rec.taskId, rec.input, rec.baseTurns),
           Frame(Going, rec.output, turns, rec.delegations, [], answers))
  }

  /** The end of a turn of the straight-line program. */
  function AfterHandling(env: Env, job: Job, finish: bool, f: Frame): Frame {
    if f.status != Going then f
    else if finish || f.turns == [] || Last(f.turns).role != Peer then f.End(Completed)
    else if RoundsSpent(job, f) >= RoundCap(env) then f.(output := TooManyRounds(env)).End(Failed)
    else Rounds(env, job, f)
  }

  /** A round is a provider call, a turn and the end of the turn. */
  lemma RoundOnce(env: Env, job: Job, f: Frame)
    ensures var input := ProgramInput(env, job, f);
            var ans := env.provider(job.id, f.log, input);
            var g := f.Do(Asked(input, ans));
            Rounds(env, job, f) ==
            if ans == RunFailed then g.End(Failed)
            else AfterHandling(env, job, TurnFinish(ans).Some?,
                               HandleAll(env, job.id, Answered(g, ans), TurnIntents(ans)))
  {
  }

  // --------------------------------------------------- termination of the loop

  lemma CallCounts(job: Job, f: Frame, m: Message)
    ensures var g := f.(turns := f.turns + [m]);
            job.inherited <= |f.turns| ==>
              RoundsSpent(job, g) == RoundsSpent(job, f) + if m.role == Assistant then 1 else 0
  {
    if job.inherited <= |f.turns| {
      assert (f.turns + [m])[job.inherited..] == f.turns[job.inherited..] + [m];
      LastOfAppend(f.turns[job.inherited..], m);
    }
  }

  /** From f to g at most one turn came in, a peer's. */
  predicate HeardAtMostOne(f: Frame, g: Frame) {
    g.turns == f.turns || (|g.turns| == |f.turns| + 1 && Init(g.turns) == f.turns && Last(g.turns).role == Peer)
  }

  lemma AwaitingAddsPeerTurn(env: Env, f: Frame)
    ensures HeardAtMostOne(f, AwaitPeer(env, f))
  {
  }

  lemma CallingAddsPeerTurn(env: Env, id: string, f: Frame, role: string, body: string)
    ensures HeardAtMostOne(f, CallPeer(env, id, f, role, body))
  {
    if env.hasDelegator && role != "" {
      var reply := env.delegate(id, f.log, role, body);
      var g := f.Do(Delegated(role, body, reply));
      if reply.Opened? {
        AwaitingAddsPeerTurn(env, g);
        AwaitingAddsPeerTurn(env, g.(delegations := g.delegations + [Delegation(role, reply.result.peerTaskId)]));
      }
    }
  }

  lemma CarryingOutAddsPeerTurn(env: Env, id: string, f: Frame, i: Intent)
    ensures HeardAtMostOne(f, CarryOut(env, id, f, i))
  {
    CallingAddsPeerTurn(env, id, f.Do(Released(i)), i.target, i.body);
  }

  /** Handling one intent adds at most one turn, a peer's. */
  lemma HandleAddsPeerTurn(env: Env, id: string, f: Frame, i: Intent)
    ensures HeardAtMostOne(f, Handle(env, id, f, i))
  {
    CarryingOutAddsPeerTurn(env, id, f, i);
    if f.answers != [] && f.answers[0] == Verdict(true) {
      CarryingOutAddsPeerTurn(env, id, f.(answers := f.answers[1..]).Do(Approved(i)), i);
    }
  }

  lemma {:induction false} HandleAllKeepsRounds(env: Env, job: Job, f: Frame, intents: seq<Intent>)
    ensures var g := HandleAll(env, job.id, f, intents);
            && |g.turns| >= |f.turns|
            && (job.inherited <= |f.turns| ==> RoundsSpent(job, g) == RoundsSpent(job, f))
    decreases |intents|
  {
    if f.status == Going && intents != [] {
      var g := Handle(env, job.id, f, intents[0]);
      HandleAddsPeerTurn(env, job.id, f, intents[0]);
      if g.turns != f.turns {
        SplitLast(g.turns);
        CallCounts(job, f, Last(g.turns));
        assert RoundsSpent(job, f.(turns := g.turns)) == RoundsSpent(job, g);
      }
      HandleAllKeepsRounds(env, job, g, intents[1..]);
    }
  }
}
