/**
 * How a task begins: what it keeps of the message that opened it, when a follow-up is refused, what it
 * inherits, and what its first provider call is given; and that all of this stays so over every run.
 */
module Openings {
  import opened Basics
  import opened BoundedContext
  import opened Tasks
  import opened Machine
  import opened Soundness
  import opened TaskTheorems
  import opened TaskStore
  import opened FollowUps

  /** The references name exactly one task of the file, and it is finished. */
  ghost predicate Followable(records: seq<TaskRecord>, refs: seq<string>) {
    |refs| == 1 && exists k | 0 <= k < |records| :: records[k].taskId == refs[0] && records[k].state.Terminal()
  }

  /** A follow-up is refused exactly when its references are not one known, finished task. */
  lemma RefusedIff(env: Env, records: seq<TaskRecord>, rec: TaskRecord, refs: seq<string>)
    requires Unique(records)
    ensures Admit(env, records, rec, refs).Refused? <==> refs != [] && !Followable(records, refs)
  {
    if |refs| == 1 {
      FindIsMember(records, refs[0]);
      if Followable(records, refs) {
        var k :| 0 <= k < |records| && records[k].taskId == refs[0] && records[k].state.Terminal();
        UniqueFind(records, k);
      } else if Find(records, refs[0]).Some? {
        var k :| 0 <= k < |records| && records[k] == Find(records, refs[0]).value;
      }
    }
  }

  /** A refused follow-up says why. */
  ghost predicate Explains(env: Env, records: seq<TaskRecord>, refs: seq<string>, text: string) {
    if |refs| != 1 then text == "supervisor: follow-up must reference exactly one task, got " + Decimal(|refs|)
    else if forall k | 0 <= k < |records| :: records[k].taskId != refs[0] then
      text == "supervisor: follow-up of unknown task " + env.quote(refs[0])
    else
      exists k | 0 <= k < |records| :: records[k].taskId == refs[0] && !records[k].state.Terminal()
        && text == "supervisor: follow-up of task " + env.quote(refs[0])
                   + ": task is not terminal (" + records[k].state.Name() + ")"
  }

  lemma RefusalExplains(env: Env, records: seq<TaskRecord>, rec: TaskRecord, refs: seq<string>)
    requires Admit(env, records, rec, refs).Refused?
    ensures Explains(env, records, refs, Admit(env, records, rec, refs).text)
  {
    if |refs| == 1 {
      FindIsMember(records, refs[0]);
      if Find(records, refs[0]).Some? {
        var k :| 0 <= k < |records| && records[k] == Find(records, refs[0]).value;
        assert records[k].taskId == refs[0] && !records[k].state.Terminal();
      } else {
        assert forall k | 0 <= k < |records| :: records[k] in records;
      }
    }
  }

  /** The first provider call of a task, and the input it gave. */
  predicate FirstCallIs(log: History, input: string) {
    log != [] && log[0].Asked? && log[0].input == input
  }

  lemma StartCalls(env: Env, rec: TaskRecord)
    ensures var first := if rec.turns == [] then rec.AddTurn(Message(User, rec.input)) else rec;
            FirstCallIs(Start(env, rec).log, RoundInput(env, first))
  {
    FirstEffectAsks(env, if rec.turns == [] then rec.AddTurn(Message(User, rec.input)) else rec, []);
  }

  // -------------------------------------------------------- what is opened

  /** The note a follow-up leaves on the task it follows, behind that task's own transcript. */
  predicate Inherited(env: Env, prev: TaskRecord, turns: seq<Message>) {
    && |turns| == (if prev.turns == [] then 2 else |prev.turns| + 1)
    && (if prev.turns == [] then turns[0] == Message(User, prev.input) else prev.turns <= turns)
    && Last(turns).role == System
    && Last(turns).content == "previous task " + env.quote(prev.taskId) + " ended in state " + prev.state.Name()
                              + if prev.output == "" then " with no output" else " with output:\n" + prev.output
  }

  /** A task opened by this message, as it must stay. */
  predicate OpenedBy(rec: TaskRecord, log: History, m: Move)
    requires m.Opens?
  {
    && rec.taskId == m.id && rec.input == m.input
    && (m.contextId != "" ==> rec.contextId == m.contextId)
    && (m.refs == [] ==> rec.followUpOf == "" && rec.contextId == m.contextId && FirstCallIs(log, m.input))
    && (rec.followUpOf != "" ==> m.refs == [rec.followUpOf])
    && if rec.turns == [] then Refusal(rec, log) && m.refs != []
       else rec.baseTurns < |rec.turns| && rec.turns[rec.baseTurns] == Message(User, m.input)
  }

  /** A refused follow-up fails before anything has happened. */
  predicate Refusal(rec: TaskRecord, log: History) {
    rec.state == Failed && rec.turns == [] && rec.delegations == [] && log == [] && rec.followUpOf == ""
  }

  lemma OpenedAlone(env: Env, records: seq<TaskRecord>, m: Move)
    requires m.Opens? && m.refs == []
    ensures var s := OpenTask(env, records, m.id, m.input, m.contextId, m.refs); OpenedBy(s.rec, s.log, m)
  {
    var rec := NewRecord(m.id, m.input, m.contextId);
    var first := rec.AddTurn(Message(User, rec.input));
    StartCalls(env, rec);
    StartGrows(env, rec);
    RoundsGrow(env, first, []);
    assert first.turns == [Message(User, m.input)] && first.turns <= Start(env, rec).rec.turns;
  }

  lemma SeededRecord(env: Env, records: seq<TaskRecord>, rec: TaskRecord, refs: seq<string>)
    requires SeedFollowUp(env, records, rec, refs).Seeded? && rec.turns == []
    ensures |refs| == 1 && Find(records, refs[0]).Some?
    ensures var prev, r := Find(records, refs[0]).value, SeedFollowUp(env, records, rec, refs).rec;
            && r.taskId == rec.taskId && r.input == rec.input && r.followUpOf == refs[0] && prev.state.Terminal()
            && r.contextId == (if rec.contextId != "" then rec.contextId else prev.contextId)
            && r.baseTurns == |r.turns| - 1 && Last(r.turns) == Message(User, rec.input)
            && Inherited(env, prev, Init(r.turns))
  {
    FindIsMember(records, refs[0]);
    var prev := Find(records, refs[0]).value;
    assert prev.(taskId := refs[0]) == prev;
    var turns := Inheritance(env, prev);
    LastOfAppend(turns, Message(User, rec.input));
    assert Last(turns) == Message(System, OutcomeText(env, prev));
  }

  lemma OpenedAsFollowUp(env: Env, records: seq<TaskRecord>, m: Move)
    requires m.Opens? && m.refs != []
    ensures var s := OpenTask(env, records, m.id, m.input, m.contextId, m.refs); OpenedBy(s.rec, s.log, m)
  {
    var rec := NewRecord(m.id, m.input, m.contextId);
    if SeedFollowUp(env, records, rec, m.refs).Seeded? {
      SeededRecord(env, records, rec, m.refs);
      var r := SeedFollowUp(env, records, rec, m.refs).rec;
      StartGrows(env, r);
      assert r.turns <= Start(env, r).rec.turns && r.turns[r.baseTurns] == Message(User, m.input);
      assert m.refs == [m.refs[0]];
    }
  }

  /**
   * A message opens a task with its own text as input and first own turn, in the context it gives or else the
   * followed task's; without references its first provider call is given exactly that text. A follow-up
   * inherits the followed task's transcript and a note on how that ended, and is refused exactly when the
   * references are not one known, finished task: then it fails before anything has happened.
   */
  lemma OpensAsAsked(env: Env, records: seq<TaskRecord>, m: Move)
    requires Unique(records) && m.Opens?
    ensures var s := OpenTask(env, records, m.id, m.input, m.contextId, m.refs);
            && OpenedBy(s.rec, s.log, m)
            && (Refusal(s.rec, s.log) <==> m.refs != [] && !Followable(records, m.refs))
            && (Refusal(s.rec, s.log) ==> Explains(env, records, m.refs, s.rec.output))
            && (m.refs != [] && Followable(records, m.refs) ==>
                  && Find(records, m.refs[0]).Some? && s.rec.followUpOf == m.refs[0]
                  && var prev := Find(records, m.refs[0]).value;
                  && s.rec.contextId == (if m.contextId != "" then m.contextId else prev.contextId)
                  && s.rec.baseTurns <= |s.rec.turns| && Inherited(env, prev, s.rec.turns[..s.rec.baseTurns]))
  {
    var rec := NewRecord(m.id, m.input, m.contextId);
    RefusedIff(env, records, rec, m.refs);
    if m.refs == [] {
      OpenedAlone(env, records, m);
    } else {
      OpenedAsFollowUp(env, records, m);
      if !Followable(records, m.refs) {
        RefusalExplains(env, records, rec, m.refs);
      }
      if Followable(records, m.refs) {
        SeededRecord(env, records, rec, m.refs);
        var r := SeedFollowUp(env, records, rec, m.refs).rec;
        StartGrows(env, r);
        assert Start(env, r).rec.turns[..r.baseTurns] == Init(r.turns);
      }
    }
  }

  // ------------------------------------------------------ runs of a task file

  /** One of the past moves opened the task. */
  ghost predicate WasOpened(rec: TaskRecord, log: History, past: seq<Move>) {
    exists j | 0 <= j < |past| :: past[j].Opens? && OpenedBy(rec, log, past[j])
  }

  ghost predicate Accounted(f: File, past: seq<Move>) {
    forall k | 0 <= k < |f.records| ::
      f.records[k].taskId in f.logs && WasOpened(f.records[k], f.logs[f.records[k].taskId], past)
  }

  /** A message to a task leaves what its opening made of it. */
  lemma GrownIsOpened(s: Rest, t: Rest, m: Move)
    requires m.Opens? && OpenedBy(s.rec, s.log, m) && Grows(s, t) && s.rec.turns != []
    ensures OpenedBy(t.rec, t.log, m)
  {
    assert t.rec.turns[s.rec.baseTurns] == s.rec.turns[s.rec.baseTurns];
    assert m.refs == [] ==> t.log[0] == s.log[0];
  }

  lemma StaysOpened(rec: TaskRecord, log: History, past: seq<Move>, m: Move)
    requires WasOpened(rec, log, past)
    ensures WasOpened(rec, log, past + [m])
  {
    var j :| 0 <= j < |past| && past[j].Opens? && OpenedBy(rec, log, past[j]);
    assert (past + [m])[j] == past[j];
  }

  lemma GrownWasOpened(s: Rest, t: Rest, past: seq<Move>, m: Move)
    requires WasOpened(s.rec, s.log, past) && Grows(s, t) && (s.rec.turns == [] ==> t == s)
    ensures WasOpened(t.rec, t.log, past + [m])
  {
    var j :| 0 <= j < |past| && past[j].Opens? && OpenedBy(s.rec, s.log, past[j]);
    if s.rec.turns != [] {
      GrownIsOpened(s, t, past[j]);
    }
    assert (past + [m])[j] == past[j];
  }

  lemma NewlyOpened(env: Env, records: seq<TaskRecord>, past: seq<Move>, m: Move)
    requires Unique(records) && m.Opens?
    ensures var s := OpenTask(env, records, m.id, m.input, m.contextId, m.refs); WasOpened(s.rec, s.log, past + [m])
  {
    OpensAsAsked(env, records, m);
    assert (past + [m])[|past|] == m;
  }

  /** The records of a file, all but the one at k0 as they were, and that one grown. */
  lemma OneGrown(f: File, k0: nat, t: Rest, past: seq<Move>, m: Move)
    requires Unique(f.records) && Accounted(f, past) && k0 < |f.records| && t.rec.taskId == f.records[k0].taskId
    requires WasOpened(t.rec, t.log, past + [m])
    ensures Accounted(File(f.records[k0 := t.rec], f.logs[t.rec.taskId := t.log]), past + [m])
  {
    var g := File(f.records[k0 := t.rec], f.logs[t.rec.taskId := t.log]);
    forall k | 0 <= k < |g.records|
      ensures g.records[k].taskId in g.logs && WasOpened(g.records[k], g.logs[g.records[k].taskId], past + [m])
    {
      if k != k0 {
        assert g.records[k] == f.records[k] && f.records[k].taskId != f.records[k0].taskId;
        StaysOpened(f.records[k], f.logs[f.records[k].taskId], past, m);
      }
    }
  }

  lemma OneMore(f: File, t: Rest, past: seq<Move>, m: Move)
    requires Accounted(f, past) && t.rec.taskId !in f.logs && WasOpened(t.rec, t.log, past + [m])
    ensures Accounted(File(f.records + [t.rec], f.logs[t.rec.taskId := t.log]), past + [m])
  {
    var g := File(f.records + [t.rec], f.logs[t.rec.taskId := t.log]);
    forall k | 0 <= k < |g.records|
      ensures g.records[k].taskId in g.logs && WasOpened(g.records[k], g.logs[g.records[k].taskId], past + [m])
    {
      if k < |f.records| {
        assert g.records[k] == f.records[k];
        StaysOpened(f.records[k], f.logs[f.records[k].taskId], past, m);
      }
    }
  }

  /** Fewer records, or the same. */
  lemma SomeLeft(f: File, g: File, past: seq<Move>, m: Move)
    requires Accounted(f, past) && g.logs == f.logs && forall r | r in g.records :: r in f.records
    ensures Accounted(g, past + [m])
  {
    forall k | 0 <= k < |g.records|
      ensures g.records[k].taskId in g.logs && WasOpened(g.records[k], g.logs[g.records[k].taskId], past + [m])
    {
      assert g.records[k] in f.records;
      StaysOpened(g.records[k], f.logs[g.records[k].taskId], past, m);
    }
  }

  /** A message to a record of a file grows it; a refused one is finished and stays. */
  lemma DeliveredGrows(env: Env, f: File, k0: nat, m: Move)
    requires Faithful(env) && Orderly(env, f) && m.Delivers? && k0 < |f.records|
    requires f.records[k0].taskId == m.id && m.id in f.logs
    ensures var s := Rest(f.records[k0], f.logs[m.id]);
            var t := Step(env, s, m.event);
            Grows(s, t) && t.rec.taskId == m.id && (s.rec.turns == [] ==> t == s)
  {
    var s := Rest(f.records[k0], f.logs[m.id]);
    if !s.rec.state.Terminal() {
      assert Settled(env, s.rec, s.log);
      NextIsSettled(env, s, m.event);
      assert Conversation(s.rec.OwnTurns());
    }
  }

  lemma MoveAccounts(env: Env, f: File, past: seq<Move>, m: Move)
    requires Faithful(env) && Orderly(env, f) && Accounted(f, past) && Enabled(f, m)
    ensures Accounted(Moved(env, f, m), past + [m])
  {
    match m
    case Opens(_, _, _, _) =>
      OpensKeeps(env, f, m);
      OpenedRecord(env, f.records, m.id, m.input, m.contextId, m.refs);
      NewlyOpened(env, f.records, past, m);
      OneMore(f, OpenTask(env, f.records, m.id, m.input, m.contextId, m.refs), past, m);
    case Delivers(_, _) => DeliversAccounts(env, f, past, m);
    case Cancels(_) =>
      WithoutFinds(f.records, m.id);
      SomeLeft(f, Moved(env, f, m), past, m);
  }

  lemma DeliversAccounts(env: Env, f: File, past: seq<Move>, m: Move)
    requires Faithful(env) && Orderly(env, f) && Accounted(f, past) && Enabled(f, m) && m.Delivers?
    ensures Accounted(Moved(env, f, m), past + [m])
  {
    if Find(f.records, m.id).None? {
      SomeLeft(f, f, past, m);
    } else {
      var k0 := DeliversReplaces(env, f, m);
      var s := Rest(f.records[k0], f.logs[m.id]);
      DeliveredGrows(env, f, k0, m);
      GrownWasOpened(s, Step(env, s, m.event), past, m);
      OneGrown(f, k0, Step(env, s, m.event), past, m);
    }
  }

  lemma {:induction false} RunAccounts(env: Env, f: File, past: seq<Move>, moves: seq<Move>)
    requires Faithful(env) && Orderly(env, f) && Accounted(f, past) && Legal(env, f, moves)
    ensures Accounted(After(env, f, moves), past + moves)
    decreases |moves|
  {
    if moves == [] {
      assert past + [] == past;
    } else {
      MoveAccounts(env, f, past, moves[0]);
      MoveKeeps(env, f, moves[0]);
      Associates(past, [moves[0]], moves[1..]);
      assert [moves[0]] + moves[1..] == moves;
      RunAccounts(env, Moved(env, f, moves[0]), past + [moves[0]], moves[1..]);
    }
  }

  /**
   * Over every run of a task file: each record still is what one of the opening messages asked for: its id,
   * its text as input and first own turn, its context if it gave one, its one reference if it is a
   * follow-up, and, without references, a first provider call on exactly that text.
   */
  lemma EveryTaskIsAsOpened(env: Env, moves: seq<Move>, k: nat)
    requires Faithful(env) && Legal(env, File([], map[]), moves)
    requires k < |After(env, File([], map[]), moves).records|
    ensures var f := After(env, File([], map[]), moves);
            var rec := f.records[k];
            rec.taskId in f.logs && WasOpened(rec, f.logs[rec.taskId], moves)
  {
    RunAccounts(env, File([], map[]), [], moves);
    assert [] + moves == moves;
  }
}
