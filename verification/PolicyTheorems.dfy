/**
 * What the policy itself says of a task's history, from its fields alone: a kind runs only if it is declared
 * and open to the role, a risky one only behind its approval, and a turn stops exactly where it must.
 */
module PolicyTheorems {
  import opened Basics
  import opened Tasks
  import opened Machine
  import opened Histories
  import opened Soundness
  import opened TaskTheorems

  /** The policy declares the kind and opens it to the role. */
  predicate Open(env: Env, kind: string) {
    kind in env.policies && env.role in env.policies[kind].allowedRoles
  }

  predicate Risky(env: Env, kind: string) {
    kind in env.policies && env.policies[kind].risk == "risky"
  }

  lemma {:induction false} LawfulAt(env: Env, log: History, k: nat)
    requires Lawful(env, log) && k < |log|
    ensures Follows(env, log[..k], log[k])
    decreases |log|
  {
    if k == |log| - 1 {
      assert log[..k] == Init(log);
    } else {
      LawfulAt(env, Init(log), k);
      assert Init(log)[..k] == log[..k];
    }
  }

  /** What must stand directly before an effect. */
  predicate Justified(env: Env, log: History, k: nat)
    requires k < |log|
  {
    match log[k]
    case Released(i) =>
      Open(env, i.kind) && (Risky(env, i.kind) ==> k > 0 && log[k - 1] == Approved(i))
    case Sent(body, _) =>
      k > 0 && log[k - 1].Released? && log[k - 1].intent.body == body && log[k - 1].intent.kind != "delegate_task"
    case Delegated(role, body, _) =>
      k > 0 && log[k - 1] == Released(Intent("delegate_task", body, role))
    case _ => true
  }

  lemma FollowsIsJustified(env: Env, log: History, k: nat)
    requires k < |log| && Follows(env, log[..k], log[k])
    ensures Justified(env, log, k)
  {
    if k > 0 {
      assert Last(log[..k]) == log[k - 1];
    }
  }

  /**
   * Over every run: a token is spent only on an intent whose kind the policy declares and opens to the role,
   * a risky one directly behind the approval of that very intent, and every send and delegation stands
   * directly behind the token spent on it.
   */
  lemma EveryEffectIsJustified(env: Env, rec: TaskRecord, schedule: seq<Event>, k: nat)
    requires Faithful(env) && Fresh(rec) && k < |Reached(env, rec, schedule).log|
    ensures Justified(env, Reached(env, rec, schedule).log, k)
  {
    RunIsSound(env, rec, schedule);
    LawfulAt(env, Reached(env, rec, schedule).log, k);
    FollowsIsJustified(env, Reached(env, rec, schedule).log, k);
  }

  // -------------------------------------------------------- where turns stop

  /** The walk did not stop at this intent: it is open to the role, not risky, and was carried out. */
  predicate Passed(env: Env, i: Intent) {
    Open(env, i.kind) && !Risky(env, i.kind)
  }

  /** How a walk that stopped at intent i ended. */
  predicate StoppedAt(env: Env, w: Walk, i: Intent, rest: seq<Intent>) {
    if !Open(env, i.kind) then w.rec.state == Rejected
    else if Risky(env, i.kind) then
      w.rec.state == InputRequired && !w.rec.AwaitsPeer() && w.rec.pending == i && w.rec.remaining == rest
    else w.rec.state == Failed || (w.rec.state == InputRequired && w.rec.AwaitsPeer() && w.rec.remaining == rest)
  }

  lemma ActSpends(env: Env, id: string, log: History, i: Intent)
    ensures Spent(Act(env, id, log, i).log) == Spent(log) + [i]
  {
    var log1 := log + [Released(i)];
    LastOfAppend(log, Released(i));
    LastOfAppend(log1, Delegated(i.target, i.body, env.delegate(id, log1, i.target, i.body)));
    LastOfAppend(log1, Sent(i.body, env.gateway(id, log1, i.body)));
  }

  lemma ActionStops(env: Env, rec: TaskRecord, a: Acted, i: Intent, rest: seq<Intent>)
    requires Idle(rec) && Passed(env, i) && (a.ok && a.outcome.parked ==> a.outcome.peerTaskId != "")
    ensures var w := AfterAction(rec, a, rest);
            (if w.halted then StoppedAt(env, w, i, rest) else Idle(w.rec)) && w.log == a.log
  {
  }

  lemma IntentStops(env: Env, rec: TaskRecord, log: History, i: Intent, rest: seq<Intent>)
    requires NamesPeers(env) && Idle(rec)
    ensures var w := RunIntent(env, rec, log, i, rest);
            && (if w.halted then StoppedAt(env, w, i, rest) else Passed(env, i) && Idle(w.rec))
            && Spent(w.log) == if Passed(env, i) then Spent(log) + [i] else Spent(log)
  {
    if Passed(env, i) {
      ParksOnNamed(env, rec.taskId, log, i);
      ActSpends(env, rec.taskId, log, i);
      ActionStops(env, rec, Act(env, rec.taskId, log, i), i, rest);
    }
  }

  /** The walk w, begun with `spent`, carried out the intents up to the k-th, and stopped there or ran through. */
  ghost predicate StopsAt(env: Env, w: Walk, spent: seq<Intent>, intents: seq<Intent>, k: nat) {
    && k <= |intents| && (w.halted <==> k < |intents|)
    && (forall j | 0 <= j < k :: Passed(env, intents[j]))
    && (w.halted ==> StoppedAt(env, w, intents[k], intents[k + 1..]))
    && Spent(w.log) == spent + intents[..if w.halted && Passed(env, intents[k]) then k + 1 else k]
  }

  lemma StopsLater(env: Env, w: Walk, spent: seq<Intent>, intents: seq<Intent>, k: nat)
    requires intents != [] && Passed(env, intents[0])
    requires StopsAt(env, w, spent + [intents[0]], intents[1..], k)
    ensures StopsAt(env, w, spent, intents, k + 1)
  {
    var rest := intents[1..];
    forall j | 0 <= j < k + 1
      ensures Passed(env, intents[j])
    {
      assert j > 0 ==> intents[j] == rest[j - 1];
    }
    var n := if w.halted && Passed(env, rest[k]) then k + 1 else k;
    Associates(spent, [intents[0]], rest[..n]);
    assert [intents[0]] + rest[..n] == intents[..n + 1];
    if w.halted {
      assert rest[k + 1..] == intents[k + 2..];
    }
  }

  /**
   * A turn's walk carries out its intents one by one up to the k-th, and stops there or runs through: it ends
   * REJECTED exactly at one the policy does not declare or not open to the role, parks for a human exactly at
   * an open risky one, and otherwise stops only at an action that failed or waits for its peer.
   */
  lemma {:induction false} WalkStopsByPolicy(env: Env, rec: TaskRecord, log: History, intents: seq<Intent>)
    returns (k: nat)
    requires NamesPeers(env) && Idle(rec)
    ensures StopsAt(env, RunIntents(env, rec, log, intents), Spent(log), intents, k)
    decreases |intents|
  {
    if intents == [] {
      k := 0;
      assert Spent(log) + [] == Spent(log);
    } else {
      IntentStops(env, rec, log, intents[0], intents[1..]);
      var w := RunIntent(env, rec, log, intents[0], intents[1..]);
      if w.halted {
        k := 0;
        assert intents[..1] == [intents[0]] && Spent(log) + intents[..0] == Spent(log);
      } else {
        k := WalkStopsByPolicy(env, w.rec, w.log, intents[1..]);
        StopsLater(env, RunIntents(env, w.rec, w.log, intents[1..]), Spent(log), intents, k);
        k := k + 1;
      }
    }
  }
}
