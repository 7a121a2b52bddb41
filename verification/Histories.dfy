/** What can be read off a task's history: turns, approvals, outside effects, peers opened. */
module Histories {
  import opened Basics
  import opened Tasks
  import opened RiskPolicy
  import opened Machine

  /** Provider calls made. */
  function Asks(log: History): nat {
    if log == [] then 0 else Asks(Init(log)) + if Last(log).Asked? then 1 else 0
  }

  function LastAnswer(log: History): Option<ProviderAnswer> {
    if log == [] then None
    else if Last(log).Asked? then Some(Last(log).answer)
    else LastAnswer(Init(log))
  }

  /** What the current turn asked for. */
  function Emitted(log: History): seq<Intent> {
    if LastAnswer(log).Some? && LastAnswer(log).value.Ran? then TurnIntents(LastAnswer(log).value) else []
  }

  /** What the current turn has carried out so far, in order. */
  function Spent(log: History): seq<Intent> {
    if log == [] || Last(log).Asked? then []
    else if Last(log).Released? then Spent(Init(log)) + [Last(log).intent]
    else Spent(Init(log))
  }

  /** Every turn before the current one was carried out entirely, each intent once and in order. */
  ghost predicate EarlierTurnsDone(log: History) {
    log == [] || (EarlierTurnsDone(Init(log)) && (Last(log).Asked? ==> Spent(Init(log)) == Emitted(Init(log))))
  }

  /** Intents a human approved, in order. */
  function Approvals(log: History): seq<Intent> {
    if log == [] then []
    else Approvals(Init(log)) + if Last(log).Approved? then [Last(log).intent] else []
  }

  /** Intents carried out although the policy calls them risky, in order. */
  function RiskySpent(env: Env, log: History): seq<Intent> {
    if log == [] then []
    else
      RiskySpent(env, Init(log)) +
      if Last(log).Released? && Classify(env, Last(log).intent.kind) == Escalate then [Last(log).intent] else []
  }

  /** Whether a delegation's answer leaves a peer task the delegating task knows of. */
  predicate LeavesPeer(env: Env, reply: DelegateAnswer) {
    && reply.Opened?
    && reply.result.peerTaskId != ""
    && (reply.result.state.Terminal()
        || (env.hasResumer && (reply.result.state.Running() || reply.result.state == InputRequired)))
  }

  /** The peer tasks opened, in order. */
  function PeersOpened(env: Env, log: History): seq<Delegation> {
    if log == [] then []
    else
      PeersOpened(env, Init(log)) +
      if Last(log).Delegated? && LeavesPeer(env, Last(log).reply)
      then [Delegation(Last(log).role, Last(log).reply.result.peerTaskId)] else []
  }

  /** One outside effect may stand only right behind the token spent for exactly it. */
  predicate Follows(env: Env, before: History, e: Effect) {
    match e
    case Sent(body, _) =>
      before != [] && Last(before).Released? && Last(before).intent.body == body
      && Last(before).intent.kind != DELEGATE_TASK
    case Delegated(role, body, _) =>
      before != [] && Last(before) == Released(Intent(DELEGATE_TASK, body, role))
    case Released(i) =>
      match Classify(env, i.kind) {
        case HardDeny => false
        case Escalate => before != [] && Last(before) == Approved(i)
        case Permit => true
      }
    case _ => true
  }

  /** Every effect is covered by a token, every risky token by an approval of the same intent. */
  ghost predicate Lawful(env: Env, log: History) {
    log == [] || (Lawful(env, Init(log)) && Follows(env, Init(log), Last(log)))
  }

  /** All of the above, one effect later. */
  ghost predicate OneMore(env: Env, log: History, e: Effect, l: History) {
    && Asks(l) == Asks(log) + (if e.Asked? then 1 else 0)
    && LastAnswer(l) == (if e.Asked? then Some(e.answer) else LastAnswer(log))
    && Spent(l) == (if e.Asked? then [] else if e.Released? then Spent(log) + [e.intent] else Spent(log))
    && (EarlierTurnsDone(l) <==> EarlierTurnsDone(log) && (e.Asked? ==> Spent(log) == Emitted(log)))
    && Approvals(l) == Approvals(log) + (if e.Approved? then [e.intent] else [])
    && RiskySpent(env, l) == RiskySpent(env, log)
                           + (if e.Released? && Classify(env, e.intent.kind) == Escalate then [e.intent] else [])
    && PeersOpened(env, l) == PeersOpened(env, log)
                       + (if e.Delegated? && LeavesPeer(env, e.reply)
                          then [Delegation(e.role, e.reply.result.peerTaskId)] else [])
    && (Lawful(env, l) <==> Lawful(env, log) && Follows(env, log, e))
  }

  lemma Extend(env: Env, log: History, e: Effect)
    ensures OneMore(env, log, e, log + [e])
  {
    LastOfAppend(log, e);
  }

  /** The history after a token was spent on i and at most one outside effect followed. */
  ghost predicate ExtendedBy(env: Env, log: History, i: Intent, o: Outcome, l: History) {
    && Asks(l) == Asks(log)
    && LastAnswer(l) == LastAnswer(log)
    && Spent(l) == Spent(log) + [i]
    && (EarlierTurnsDone(l) <==> EarlierTurnsDone(log))
    && Approvals(l) == Approvals(log)
    && RiskySpent(env, l) == RiskySpent(env, log) + (if Classify(env, i.kind) == Escalate then [i] else [])
    && PeersOpened(env, l) == PeersOpened(env, log)
                            + (if o.peerTaskId != "" then [Delegation(o.peerRole, o.peerTaskId)] else [])
    && Lawful(env, l)
  }

  lemma TokenExtends(env: Env, log: History, i: Intent)
    requires Lawful(env, log) && Follows(env, log, Released(i))
    ensures ExtendedBy(env, log, i, NO_OUTCOME, log + [Released(i)])
  {
    Extend(env, log, Released(i));
  }

  lemma EffectExtends(env: Env, log: History, i: Intent, e: Effect, o: Outcome)
    requires e.Sent? || e.Delegated?
    requires ExtendedBy(env, log, i, NO_OUTCOME, log + [Released(i)])
    requires Follows(env, log + [Released(i)], e)
    requires e.Sent? ==> o == NO_OUTCOME
    requires e.Delegated? ==>
               if LeavesPeer(env, e.reply) then o.peerRole == e.role && o.peerTaskId == e.reply.result.peerTaskId
               else o.peerTaskId == ""
    ensures ExtendedBy(env, log, i, o, log + [Released(i)] + [e])
  {
    Extend(env, log + [Released(i)], e);
  }

  lemma DelegateExtends(env: Env, id: string, log: History, i: Intent)
    requires i.kind == DELEGATE_TASK && ExtendedBy(env, log, i, NO_OUTCOME, log + [Released(i)])
    ensures var a := Delegate(env, id, log + [Released(i)], i.target, i.body);
            ExtendedBy(env, log, i, a.outcome, a.log)
  {
    if env.hasDelegator && i.target != "" {
      var log1 := log + [Released(i)];
      var e := Delegated(i.target, i.body, env.delegate(id, log1, i.target, i.body));
      LastOfAppend(log, Released(i));
      EffectExtends(env, log, i, e, Delegate(env, id, log1, i.target, i.body).outcome);
    }
  }

  /** What performing an intent adds to the history. */
  lemma ActExtends(env: Env, id: string, log: History, i: Intent)
    requires Lawful(env, log) && Follows(env, log, Released(i))
    ensures var a := Act(env, id, log, i); ExtendedBy(env, log, i, a.outcome, a.log)
  {
    TokenExtends(env, log, i);
    var log1 := log + [Released(i)];
    LastOfAppend(log, Released(i));
    if i.kind == DELEGATE_TASK {
      DelegateExtends(env, id, log, i);
    } else if env.hasGateway {
      EffectExtends(env, log, i, Sent(i.body, env.gateway(id, log1, i.body)), NO_OUTCOME);
    }
  }
}
