/** The data a supervisor persists and exchanges: intents, task records, peer answers, effects. */
module Tasks {
  import opened Basics
  import opened BoundedContext

  /** A2A task states (TaskState, section 4.1.3 of the A2A specification 1.0). */
  datatype TaskState =
    | Submitted
    | Working
    | InputRequired
    | Completed
    | Failed
    | Rejected
    | Canceled
    | Unlisted(name: string)  // AUTH_REQUIRED, unspecified, or anything else on the wire
  {
    predicate Terminal() {
      Completed? || Failed? || Rejected? || Canceled?
    }

    predicate Running() {
      Submitted? || Working?
    }

    function Name(): string {
      match this
      case Submitted => "TASK_STATE_SUBMITTED"
      case Working => "TASK_STATE_WORKING"
      case InputRequired => "TASK_STATE_INPUT_REQUIRED"
      case Completed => "TASK_STATE_COMPLETED"
      case Failed => "TASK_STATE_FAILED"
      case Rejected => "TASK_STATE_REJECTED"
      case Canceled => "TASK_STATE_CANCELED"
      case Unlisted(name) => name
    }
  }

  const DELEGATE_TASK := "delegate_task"
  const FINISH_TASK := "finish_task"

  /** A payload value: only strings are ever read. */
  datatype Value = Text(text: string) | NotText

  /** What the provider emits. */
  datatype ActionIntent = ActionIntent(kind: string, payload: map<string, Value>)

  function StringArg(intent: ActionIntent, key: string): string {
    if key in intent.payload && intent.payload[key].Text? then intent.payload[key].text else ""
  }

  /** The persisted form of an intent. */
  datatype Intent = Intent(kind: string, body: string, target: string)

  datatype Delegation = Delegation(role: string, taskId: string)

  datatype TaskRecord = TaskRecord(
    taskId: string,
    state: TaskState,
    input: string,
    pending: Intent,                 // kind "" when nothing is pending
    remaining: seq<Intent>,
    turns: seq<Message>,
    awaitingRole: string,
    awaitingTaskId: string,          // "" when no peer is awaited
    awaitingApproval: bool,
    finishRequested: bool,
    delegations: seq<Delegation>,
    output: string,
    contextId: string,
    followUpOf: string,
    baseTurns: nat)
  {
    predicate AwaitsPeer() {
      awaitingTaskId != ""
    }

    predicate AwaitsVerdict() {
      pending.kind != ""
    }

    function AddTurn(m: Message): TaskRecord {
      this.(turns := turns + [m])
    }

    /** Rounds this task spent itself; inherited ones do not count. */
    function Rounds(): nat {
      if baseTurns > |turns| then 0 else AssistantTurns(turns[baseTurns..])
    }

    function OwnTurns(): seq<Message> {
      if baseTurns > |turns| then [] else turns[baseTurns..]
    }
  }

  const NO_INTENT := Intent("", "", "")

  function AssistantTurns(turns: seq<Message>): (n: nat)
    ensures n <= |turns|
  {
    if turns == [] then 0
    else AssistantTurns(Init(turns)) + if Last(turns).role == Assistant then 1 else 0
  }

  function PeerTurns(turns: seq<Message>): (n: nat)
    ensures n <= |turns|
  {
    if turns == [] then 0
    else PeerTurns(Init(turns)) + if Last(turns).role == Peer then 1 else 0
  }

  /** One more turn: its effect on the counts and on the task's own part of the transcript. */
  lemma CountTurn(rec: TaskRecord, m: Message)
    requires rec.baseTurns <= |rec.turns|
    ensures rec.AddTurn(m).OwnTurns() == rec.OwnTurns() + [m]
    ensures rec.AddTurn(m).Rounds() == rec.Rounds() + if m.role == Assistant then 1 else 0
    ensures PeerTurns(rec.AddTurn(m).OwnTurns()) == PeerTurns(rec.OwnTurns()) + if m.role == Peer then 1 else 0
  {
    assert (rec.turns + [m])[rec.baseTurns..] == rec.turns[rec.baseTurns..] + [m];
    LastOfAppend(rec.OwnTurns(), m);
  }

  /** The observed state of a peer task. */
  datatype DelegationResult = DelegationResult(peerTaskId: string, state: TaskState, output: string)

  datatype DelegateAnswer = DelegateFailed | Opened(result: DelegationResult)

  datatype ProviderAnswer = RunFailed | Ran(output: string, intents: seq<ActionIntent>)

  /** What a reading of the awaited peer says when a message reaches the task. */
  datatype PeerRead = ReadFailed | Read(result: DelegationResult)

  /**
   * What a task did, oldest first: provider calls with their answers, approvals consumed, single-use
   * tokens spent on an intent, and the outside calls those tokens allowed.
   */
  datatype Effect =
    | Asked(input: string, answer: ProviderAnswer)
    | Approved(intent: Intent)
    | Released(intent: Intent)
    | Sent(body: string, ok: bool)
    | Delegated(role: string, body: string, reply: DelegateAnswer)

  type History = seq<Effect>

  datatype Policy = Policy(risk: string, allowedRoles: seq<string>)

  /**
   * The configuration of a supervisor and its surroundings. Provider, gateway and delegator are
   * arbitrary functions of what the task has done so far, so they may answer every call differently.
   */
  datatype Env = Env(
    role: string,
    policies: map<string, Policy>,
    maxRounds: int,
    contextBudget: int,
    providerBudget: int,
    hasGateway: bool,
    hasDelegator: bool,
    hasResumer: bool,
    quote: string -> string,
    provider: (string, History, string) -> ProviderAnswer,
    gateway: (string, History, string) -> bool,
    delegate: (string, History, string, string) -> DelegateAnswer)
  {
    function MaxRounds(): (n: nat)
      ensures n >= 1
    {
      if maxRounds > 0 then maxRounds else 8
    }

    function Budget(): int {
      if contextBudget != 0 then contextBudget else providerBudget
    }
  }

  function Decimal(n: nat): string {
    var digit := ['0' + (n % 10) as char];
    if n < 10 then digit else Decimal(n / 10) + digit
  }

  /** Digits read back. */
  function NumberOf(digits: string): nat {
    if digits == "" then 0
    else 10 * NumberOf(Init(digits)) + if '0' <= Last(digits) <= '9' then (Last(digits) - '0') as nat else 0
  }

  /** A number is written in decimal digits, without leading zeros, that read back to it. */
  lemma {:induction false} DecimalReads(n: nat)
    ensures NumberOf(Decimal(n)) == n && Decimal(n) != ""
    ensures forall k | 0 <= k < |Decimal(n)| :: '0' <= Decimal(n)[k] <= '9'
    ensures n > 0 ==> Decimal(n)[0] != '0'
  {
    var digit := ['0' + (n % 10) as char];
    assert Init(digit) == "";
    if n >= 10 {
      DecimalReads(n / 10);
      LastOfAppend(Decimal(n / 10), digit[0]);
    }
  }

  /** The states of the A2A specification, by the names they have on the wire. */
  lemma StatesOnTheWire(s: TaskState)
    requires !s.Unlisted?
    ensures s.Terminal() <==>
              s.Name() in {"TASK_STATE_COMPLETED", "TASK_STATE_FAILED", "TASK_STATE_REJECTED", "TASK_STATE_CANCELED"}
    ensures s.Running() <==> s.Name() in {"TASK_STATE_SUBMITTED", "TASK_STATE_WORKING"}
    ensures s == InputRequired <==> s.Name() == "TASK_STATE_INPUT_REQUIRED"
    ensures s == Completed <==> s.Name() == "TASK_STATE_COMPLETED"
  {
    var at := 11;
    match s
    case Submitted => assert s.Name()[at] == 'S';
    case Working => assert s.Name()[at] == 'W';
    case InputRequired => assert s.Name()[at] == 'I';
    case Completed => assert s.Name()[at] == 'C' && |s.Name()| == 20 && s.Name()[at + 1] == 'O';
    case Failed => assert s.Name()[at] == 'F';
    case Rejected => assert s.Name()[at] == 'R';
    case Canceled => assert s.Name()[at] == 'C' && s.Name()[at + 1] == 'A';
  }
}
