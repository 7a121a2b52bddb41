/**
 * What one poll of a peer makes a watcher do, against what the message it would deliver does to the
 * parked task.
 */
module PeerWatch {
  import opened BoundedContext
  import opened Tasks
  import opened Machine
  import opened Histories
  import opened Soundness
  import opened TaskTheorems

  const PEER_UPDATE := "peer-update"

  datatype PollResult = Wait | Leave | Wake(input: string)

  /** The record is still parked on exactly this peer. */
  predicate StillParked(rec: TaskRecord, peer: string) {
    rec.state == InputRequired && rec.awaitingTaskId == peer && !rec.AwaitsVerdict()
  }

  /** One tick: `expired` says whether the delegation deadline has passed. */
  function Poll(env: Env, rec: TaskRecord, peer: string, read: PeerRead, expired: bool): PollResult {
    if !env.hasDelegator || !env.hasResumer then Leave
    else if read == ReadFailed then Wait
    else if !StillParked(rec, peer) then Leave
    else
      var escalated := read.result.state == InputRequired;
      if !read.result.state.Terminal() && escalated == rec.awaitingApproval then
        if escalated || !expired then Wait else Wake(PEER_TIMEOUT)
      else Wake(PEER_UPDATE)
  }

  /** The Delegator reports only these states; any other is an error. */
  predicate KeepsContract(read: PeerRead) {
    read.Read? ==> !read.result.state.Unlisted?
  }

  lemma HearingGrows(env: Env, s: Rest, m: Message)
    ensures FinishTurn(env, ClearPeer(s.rec.AddTurn(m)).(state := Working), s.log, s.rec.remaining).rec != s.rec
  {
    var r := ClearPeer(s.rec.AddTurn(m)).(state := Working);
    FinishTurnGrows(env, r, s.log, s.rec.remaining);
    assert |r.turns| == |s.rec.turns| + 1;
  }

  lemma WaitingMissesNothing(env: Env, s: Rest, read: PeerRead, expired: bool)
    requires s.rec.state == InputRequired && s.rec.AwaitsPeer()
    requires Poll(env, s.rec, s.rec.awaitingTaskId, read, expired) == Wait
    ensures Step(env, s, Arrives(PEER_UPDATE, read)) == s <==> KeepsContract(read)
  {
    NoticesNeverApprove(env, s.rec, s.rec.awaitingTaskId, read, expired);
    assert s.rec.(awaitingApproval := s.rec.awaitingApproval, state := InputRequired) == s.rec;
  }

  lemma WakingChanges(env: Env, s: Rest, read: PeerRead, expired: bool)
    requires s.rec.state == InputRequired && s.rec.AwaitsPeer()
    requires Poll(env, s.rec, s.rec.awaitingTaskId, read, expired).Wake?
    ensures Step(env, s, Arrives(Poll(env, s.rec, s.rec.awaitingTaskId, read, expired).input, read)).rec != s.rec
  {
    var (o, ok) := OutcomeForPeer(s.rec.awaitingRole, read.result);
    var text := if ok then o.output else WithoutOutputText(env, read.result);
    if read.result.state.Terminal() {
      HearingGrows(env, s, BoundedContext.Message(Peer, text));
    }
  }

  /**
   * A watcher of a task parked on its peer gives up only when no delegator or no resumer is configured.
   * Otherwise it wakes the task only with a message that changes it, as long as the peer reads the same,
   * and when it waits a message would change nothing, unless the delegator breaks its contract.
   */
  lemma WakesIffItMatters(env: Env, s: Rest, read: PeerRead, expired: bool)
    requires Faithful(env) && Sound(env, s) && s.rec.state == InputRequired && s.rec.AwaitsPeer()
    ensures match Poll(env, s.rec, s.rec.awaitingTaskId, read, expired)
            case Leave => !env.hasDelegator || !env.hasResumer
            case Wait => Step(env, s, Arrives(PEER_UPDATE, read)) == s <==> KeepsContract(read)
            case Wake(input) => Step(env, s, Arrives(input, read)).rec != s.rec
  {
    match Poll(env, s.rec, s.rec.awaitingTaskId, read, expired)
    case Wait => WaitingMissesNothing(env, s, read, expired);
    case Wake(_) => WakingChanges(env, s, read, expired);
    case Leave =>
  }

  /**
   * A watcher reports a timeout exactly when the deadline has passed on a peer that still runs, as it did
   * before; the task then fails. It leaves exactly when the wait is over or nothing is configured to end it.
   */
  lemma TimesOutIff(env: Env, rec: TaskRecord, peer: string, read: PeerRead, expired: bool)
    requires env.hasDelegator && env.hasResumer && KeepsContract(read)
    ensures Poll(env, rec, peer, read, expired) == Wake(PEER_TIMEOUT) <==>
              && expired && read.Read? && read.result.state.Running() && !rec.awaitingApproval
              && rec.state == InputRequired && rec.awaitingTaskId == peer && rec.pending.kind == ""
    ensures Poll(env, rec, peer, read, expired) == Leave <==>
              read.Read? && !(rec.state == InputRequired && rec.awaitingTaskId == peer && rec.pending.kind == "")
  {
    NoticesNeverApprove(env, rec, peer, read, expired);
    assert PEER_UPDATE[5] != PEER_TIMEOUT[5];
  }

  /** A timed-out wait fails the task; the peer is left alone. */
  lemma TimeoutFails(env: Env, s: Rest, read: PeerRead)
    requires s.rec.state == InputRequired && s.rec.AwaitsPeer() && read.Read? && read.result.state.Running()
    ensures var t := Step(env, s, Arrives(PEER_TIMEOUT, read));
            t == Rest(ClearPeer(s.rec).(state := Failed), s.log)
  {
  }

  /** A peer that waits for its own human never times out, and no notice ever reads as an approval. */
  lemma NoticesNeverApprove(env: Env, rec: TaskRecord, peer: string, read: PeerRead, expired: bool)
    ensures Poll(env, rec, peer, read, expired) != Wake(APPROVE)
    ensures read.Read? && read.result.state == InputRequired ==>
              Poll(env, rec, peer, read, expired) != Wake(PEER_TIMEOUT)
  {
    assert PEER_UPDATE[0] != APPROVE[0] && PEER_TIMEOUT[0] != APPROVE[0];
    assert PEER_UPDATE[5] != PEER_TIMEOUT[5];
  }

  /**
   * A notice that arrives once the task waits for its human approves nothing, but it is taken for a
   * verdict: every message to such a task that is not "approve" rejects it, whoever sent it.
   */
  lemma LateNoticeRejects(env: Env, s: Rest, input: string, read: PeerRead)
    requires Faithful(env) && Sound(env, s) && s.rec.state == InputRequired && s.rec.AwaitsVerdict()
    ensures Step(env, s, Arrives(input, read)) == Rest(s.rec.(state := Rejected), s.log) <==> input != APPROVE
  {
    if input == APPROVE {
      VerdictGrows(env, s, input);
      assert |Approvals(ResumeVerdict(env, s.rec, s.log, input).log)| == |Approvals(s.log)| + 1;
    }
  }
}
