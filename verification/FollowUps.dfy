/**
 * Follow-ups: a client's answer to a finished task runs as a new task that inherits the finished
 * one's transcript. Over any run of a supervisor's whole task file, inherited transcripts stay
 * prefixes, followed tasks never change, and the links never form a circle.
 */
module FollowUps {
  import opened Basics
  import opened BoundedContext
  import opened Tasks
  import opened Machine
  import opened Soundness
  import opened TaskTheorems
  import opened TaskStore

  datatype Seeding = Refused(text: string) | Seeded(rec: TaskRecord)

  function NewRecord(id: string, input: string, contextId: string): TaskRecord {
    TaskRecord(id, Working, input, NO_INTENT, [], [], "", "", false, false, [], "", contextId, "", 0)
  }

  function OutcomeText(env: Env, prev: TaskRecord): string {
    "previous task " + env.quote(prev.taskId) + " ended in state " + prev.state.Name() +
    if prev.output != "" then " with output:\n" + prev.output else " with no output"
  }

  /** The transcript a follow-up inherits: the whole chain's, then how the followed task ended. */
  function Inheritance(env: Env, prev: TaskRecord): seq<Message> {
    (if prev.turns == [] then [Message(User, prev.input)] else prev.turns)
    + [Message(System, OutcomeText(env, prev))]
  }

  function SeedFollowUp(env: Env, records: seq<TaskRecord>, rec: TaskRecord, refs: seq<string>): Seeding {
    if |refs| != 1 then
      Refused("supervisor: follow-up must reference exactly one task, got " + Decimal(|refs|))
    else
      match Find(records, refs[0])
      case None => Refused("supervisor: follow-up of unknown task " + env.quote(refs[0]))
      case Some(prev) =>
        if !prev.state.Terminal() then
          Refused("supervisor: follow-up of task " + env.quote(refs[0])
                  + ": task is not terminal (" + prev.state.Name() + ")")
        else
          var turns := Inheritance(env, prev.(taskId := refs[0]));
          Seeded(rec.(
                 turns := turns + [Message(User, rec.input)],
                 baseTurns := |turns|,
                 followUpOf := refs[0],
                 contextId := if rec.contextId == "" then prev.contextId else rec.contextId))
  }

  /** A task that references nothing starts as it is. */
  function Admit(env: Env, records: seq<TaskRecord>, rec: TaskRecord, refs: seq<string>): Seeding {
    if refs == [] then Seeded(rec) else SeedFollowUp(env, records, rec, refs)
  }

  /** A refused follow-up fails at once; any other task runs until it rests. */
  function Proceed(env: Env, rec: TaskRecord, seeding: Seeding): Rest {
    match seeding
    case Refused(text) => Rest(rec.(output := text, state := Failed), [])
    case Seeded(r) => Start(env, r)
  }

  /** A new task; `refs` are the tasks its message references. */
  function OpenTask(env: Env, records: seq<TaskRecord>, id: string, input: string, contextId: string,
                    refs: seq<string>): Rest {
    var rec := NewRecord(id, input, contextId);
    Proceed(env, rec, Admit(env, records, rec, refs))
  }

  // ------------------------------------------------------ runs of a task file

  datatype File = File(records: seq<TaskRecord>, logs: map<string, History>)

  datatype Move =
    | Opens(id: string, input: string, contextId: string, refs: seq<string>)
    | Delivers(id: string, event: Event)
    | Cancels(id: string)

  /** a2asrv names new tasks freshly and non-emptily, and refuses to cancel a terminal task. */
  predicate Enabled(f: File, m: Move) {
    match m
    case Opens(id, _, _, _) => id != "" && id !in f.logs
    case Delivers(id, _) => id in f.logs
    case Cancels(id) => Find(f.records, id).Some? && !Find(f.records, id).value.state.Terminal()
  }

  function Moved(env: Env, f: File, m: Move): File
    requires Enabled(f, m)
  {
    match m
    case Opens(id, input, contextId, refs) =>
      var s := OpenTask(env, f.records, id, input, contextId, refs);
      File(Saved(f.records, s.rec), f.logs[id := s.log])
    case Delivers(id, event) =>
      (match Find(f.records, id)
       case None => f
       case Some(rec) =>
         var s := Step(env, Rest(rec, f.logs[id]), event);
         File(Saved(f.records, s.rec), f.logs[id := s.log]))
    case Cancels(id) =>
      File(Without(f.records, id), f.logs)
  }

  ghost predicate Legal(env: Env, f: File, moves: seq<Move>)
    decreases |moves|
  {
    moves == [] || (Enabled(f, moves[0]) && Legal(env, Moved(env, f, moves[0]), moves[1..]))
  }

  ghost function After(env: Env, f: File, moves: seq<Move>): File
    requires Legal(env, f, moves)
    decreases |moves|
  {
    if moves == [] then f else After(env, Moved(env, f, moves[0]), moves[1..])
  }

  /** A record is a sound rest point, or finished. */
  ghost predicate Settled(env: Env, rec: TaskRecord, log: History) {
    rec.taskId != "" && rec.baseTurns <= |rec.turns| && (rec.state.Terminal() || Sound(env, Rest(rec, log)))
  }

  ghost predicate AllSettled(env: Env, f: File) {
    forall k | 0 <= k < |f.records| ::
      f.records[k].taskId in f.logs && Settled(env, f.records[k], f.logs[f.records[k].taskId])
  }

  /** Every follow-up extends what it inherited from an earlier record. */
  ghost predicate Linked(env: Env, records: seq<TaskRecord>) {
    forall k | 0 <= k < |records| :: records[k].followUpOf != "" ==> InheritsEarlier(env, records, k)
  }

  ghost predicate Orderly(env: Env, f: File) {
    Unique(f.records) && AllSettled(env, f) && Linked(env, f.records)
  }

  /** Record k follows an earlier, terminal record of the same file. */
  ghost predicate InheritsEarlier(env: Env, records: seq<TaskRecord>, k: nat)
    requires k < |records|
  {
    exists j | 0 <= j < k :: Inherits(env, records[j], records[k])
  }

  predicate Inherits(env: Env, prev: TaskRecord, rec: TaskRecord) {
    && prev.taskId == rec.followUpOf
    && prev.state.Terminal()
    && Inheritance(env, prev) <= rec.turns
    && rec.baseTurns == |Inheritance(env, prev)|
  }

  // ------------------------------------------------------------ every move

  lemma {:induction false} SavedInPlace(records: seq<TaskRecord>, k: nat, rec: TaskRecord)
    requires Unique(records) && k < |records| && records[k].taskId == rec.taskId
    ensures Saved(records, rec) == records[k := rec]
  {
    if k > 0 {
      assert records[0].taskId != records[k].taskId;
      SavedInPlace(records[1..], k - 1, rec);
    }
  }

  lemma {:induction false} WithoutOne(records: seq<TaskRecord>, k: nat)
    requires Unique(records) && k < |records|
    ensures Without(records, records[k].taskId) == records[..k] + records[k + 1..]
  {
    var last := |records| - 1;
    if k == last {
      forall r | r in Init(records)
        ensures r.taskId != records[k].taskId
      {
        var j :| 0 <= j < |Init(records)| && Init(records)[j] == r;
        assert records[j] == r;
      }
      WithoutAbsent(Init(records), records[k].taskId);
    } else {
      assert records[k].taskId != records[last].taskId;
      WithoutOne(Init(records), k);
      assert records[k + 1..] == Init(records)[k + 1..] + [records[last]];
    }
  }

  lemma {:induction false} WithoutAbsent(records: seq<TaskRecord>, id: string)
    requires forall r | r in records :: r.taskId != id
    ensures Without(records, id) == records
  {
    if records != [] {
      SplitLast(records);
      WithoutAbsent(Init(records), id);
    }
  }

  lemma IndexOf(records: seq<TaskRecord>, id: string) returns (k: nat)
    requires Find(records, id).Some?
    ensures k < |records| && records[k] == Find(records, id).value && records[k].taskId == id
  {
    FindIsMember(records, id);
    k :| 0 <= k < |records| && records[k] == Find(records, id).value;
  }

  // ------------------------------------------------- the links, list by list

  lemma LinkAppended(env: Env, records: seq<TaskRecord>, rec: TaskRecord)
    requires Linked(env, records)
    requires rec.followUpOf != "" ==> InheritsEarlier(env, records + [rec], |records|)
    ensures Linked(env, records + [rec])
  {
    var rs := records + [rec];
    forall k | 0 <= k < |rs| && rs[k].followUpOf != ""
      ensures InheritsEarlier(env, rs, k)
    {
      if k < |records| {
        assert InheritsEarlier(env, records, k);
        var j :| 0 <= j < k && Inherits(env, records[j], records[k]);
        assert Inherits(env, rs[j], rs[k]);
      }
    }
  }

  lemma LinkReplaced(env: Env, records: seq<TaskRecord>, k0: nat, rec: TaskRecord)
    requires Linked(env, records) && k0 < |records| && !records[k0].state.Terminal()
    requires records[k0].turns <= rec.turns && Identity(rec) == Identity(records[k0])
    ensures Linked(env, records[k0 := rec])
  {
    var rs := records[k0 := rec];
    forall k | 0 <= k < |rs| && rs[k].followUpOf != ""
      ensures InheritsEarlier(env, rs, k)
    {
      assert InheritsEarlier(env, records, k);
      var j :| 0 <= j < k && Inherits(env, records[j], records[k]);
      assert Inherits(env, rs[j], rs[k]);
    }
  }

  lemma LinkRemoved(env: Env, records: seq<TaskRecord>, k0: nat)
    requires Linked(env, records) && k0 < |records| && !records[k0].state.Terminal()
    ensures Linked(env, records[..k0] + records[k0 + 1..])
  {
    var rs := records[..k0] + records[k0 + 1..];
    forall k | 0 <= k < |rs| && rs[k].followUpOf != ""
      ensures InheritsEarlier(env, rs, k)
    {
      StillInherits(env, records, k0, k);
    }
  }

  lemma StillInherits(env: Env, records: seq<TaskRecord>, k0: nat, k: nat)
    requires k0 < |records| && !records[k0].state.Terminal() && k < |records| - 1
    requires InheritsEarlier(env, records, if k < k0 then k else k + 1)
    ensures InheritsEarlier(env, records[..k0] + records[k0 + 1..], k)
  {
    var k' := if k < k0 then k else k + 1;
    var j :| 0 <= j < k' && Inherits(env, records[j], records[k']);
    var i := TwoStay(records, k0, j, k');
    MovedInherits(env, records[j], records[k'], records[..k0] + records[k0 + 1..], i, k);
  }

  lemma MovedInherits(env: Env, prev: TaskRecord, rec: TaskRecord, rs: seq<TaskRecord>, i: nat, k: nat)
    requires i < k < |rs| && rs[i] == prev && rs[k] == rec && Inherits(env, prev, rec)
    ensures InheritsEarlier(env, rs, k)
  {
    assert Inherits(env, rs[i], rs[k]);
  }

  // --------------------------------------------------------- move by move

  /** A new task is settled, keeps its identity, and extends what it inherits. */
  lemma OpenedRecord(env: Env, records: seq<TaskRecord>, id: string, input: string, contextId: string,
                     refs: seq<string>)
    requires Faithful(env) && id != ""
    ensures var s := OpenTask(env, records, id, input, contextId, refs);
            && s.rec.taskId == id
            && Settled(env, s.rec, s.log)
            && (s.rec.followUpOf != "" ==>
                  && Find(records, s.rec.followUpOf).Some?
                  && Inherits(env, Find(records, s.rec.followUpOf).value, s.rec))
  {
    var rec := NewRecord(id, input, contextId);
    if refs == [] {
      StartIsSound(env, rec);
      StartGrows(env, rec);
    } else if SeedFollowUp(env, records, rec, refs).Seeded? {
      var r := SeedFollowUp(env, records, rec, refs).rec;
      FindIsMember(records, refs[0]);
      var prev := Find(records, refs[0]).value;
      assert prev.(taskId := refs[0]) == prev;
      StartIsSound(env, r);
      StartGrows(env, r);
    }
  }

  lemma StartGrows(env: Env, rec: TaskRecord)
    ensures Grows(Rest(rec, []), Start(env, rec))
  {
    var r := if rec.turns == [] then rec.AddTurn(Message(User, rec.input)) else rec;
    RoundsGrow(env, r, []);
    GrowsTransitive(Rest(rec, []), Rest(r, []), Start(env, rec));
  }

  lemma OpensKeeps(env: Env, f: File, m: Move)
    requires Faithful(env) && Orderly(env, f) && Enabled(f, m) && m.Opens?
    ensures Orderly(env, Moved(env, f, m))
    ensures Moved(env, f, m).records == f.records + [OpenTask(env, f.records, m.id, m.input, m.contextId, m.refs).rec]
  {
    var s := OpenTask(env, f.records, m.id, m.input, m.contextId, m.refs);
    OpenedRecord(env, f.records, m.id, m.input, m.contextId, m.refs);
    assert m.id !in Ids(f.records);
    SavedKeepsPlaces(f.records, s.rec);
    SavedStaysUnique(f.records, s.rec);
    SettledAppended(env, f, s.rec, s.log);
    if s.rec.followUpOf != "" {
      FoundIsEarlier(env, f.records, s.rec);
    }
    LinkAppended(env, f.records, s.rec);
  }

  lemma FoundIsEarlier(env: Env, records: seq<TaskRecord>, rec: TaskRecord)
    requires Find(records, rec.followUpOf).Some? && Inherits(env, Find(records, rec.followUpOf).value, rec)
    ensures InheritsEarlier(env, records + [rec], |records|)
  {
    var j := IndexOf(records, rec.followUpOf);
    var rs := records + [rec];
    assert rs[j] == records[j] && rs[|records|] == rec;
    assert Inherits(env, rs[j], rs[|records|]);
  }

  lemma SettledAppended(env: Env, f: File, rec: TaskRecord, log: History)
    requires AllSettled(env, f) && rec.taskId !in f.logs && Settled(env, rec, log)
    ensures AllSettled(env, File(f.records + [rec], f.logs[rec.taskId := log]))
  {
    var g := File(f.records + [rec], f.logs[rec.taskId := log]);
    forall k | 0 <= k < |g.records|
      ensures g.records[k].taskId in g.logs && Settled(env, g.records[k], g.logs[g.records[k].taskId])
    {
      assert k < |f.records| ==> g.records[k] == f.records[k];
    }
  }

  lemma SettledReplaced(env: Env, f: File, k0: nat, rec: TaskRecord, log: History)
    requires Unique(f.records) && AllSettled(env, f) && k0 < |f.records|
    requires rec.taskId == f.records[k0].taskId && Settled(env, rec, log)
    ensures AllSettled(env, File(f.records[k0 := rec], f.logs[rec.taskId := log]))
    ensures Unique(f.records[k0 := rec])
  {
    var g := File(f.records[k0 := rec], f.logs[rec.taskId := log]);
    forall k | 0 <= k < |g.records|
      ensures g.records[k].taskId in g.logs && Settled(env, g.records[k], g.logs[g.records[k].taskId])
    {
      assert k != k0 ==> g.records[k] == f.records[k] && f.records[k].taskId != rec.taskId;
    }
  }

  /** A message replaces the record of one unfinished task, if any. */
  lemma DeliversReplaces(env: Env, f: File, m: Move) returns (k0: nat)
    requires Orderly(env, f) && Enabled(f, m) && m.Delivers? && Find(f.records, m.id).Some?
    ensures k0 < |f.records| && f.records[k0].taskId == m.id
    ensures var t := Step(env, Rest(f.records[k0], f.logs[m.id]), m.event);
            t.rec.taskId == m.id ==>
              Moved(env, f, m) == File(f.records[k0 := t.rec], f.logs[m.id := t.log])
  {
    k0 := IndexOf(f.records, m.id);
    var t := Step(env, Rest(f.records[k0], f.logs[m.id]), m.event);
    if t.rec.taskId == m.id {
      SavedInPlace(f.records, k0, t.rec);
    }
  }

  lemma NothingReplaced(f: File, k0: nat)
    requires k0 < |f.records| && f.records[k0].taskId in f.logs
    ensures File(f.records[k0 := f.records[k0]], f.logs[f.records[k0].taskId := f.logs[f.records[k0].taskId]]) == f
  {
  }

  lemma ReplacedStaysOrderly(env: Env, f: File, k0: nat, t: Rest)
    requires Orderly(env, f) && k0 < |f.records| && !f.records[k0].state.Terminal()
    requires f.records[k0].turns <= t.rec.turns && Identity(t.rec) == Identity(f.records[k0])
    requires Settled(env, t.rec, t.log)
    ensures Orderly(env, File(f.records[k0 := t.rec], f.logs[t.rec.taskId := t.log]))
  {
    SettledReplaced(env, f, k0, t.rec, t.log);
    LinkReplaced(env, f.records, k0, t.rec);
  }

  lemma DeliversKeeps(env: Env, f: File, m: Move)
    requires Faithful(env) && Orderly(env, f) && Enabled(f, m) && m.Delivers?
    ensures Orderly(env, Moved(env, f, m))
    ensures |Moved(env, f, m).records| == |f.records|
    ensures forall k | 0 <= k < |f.records| && f.records[k].state.Terminal() ::
              Moved(env, f, m).records[k] == f.records[k]
  {
    if Find(f.records, m.id).Some? {
      var k0 := DeliversReplaces(env, f, m);
      var rec := f.records[k0];
      var s := Rest(rec, f.logs[m.id]);
      if rec.state.Terminal() {
        NothingReplaced(f, k0);
      } else {
        assert Settled(env, rec, f.logs[m.id]);
        NextIsSettled(env, s, m.event);
        ReplacedStaysOrderly(env, f, k0, Step(env, s, m.event));
      }
    }
  }

  lemma NextIsSettled(env: Env, s: Rest, e: Event)
    requires Faithful(env) && Sound(env, s) && s.rec.taskId != ""
    ensures var t := Step(env, s, e); Grows(s, t) && Settled(env, t.rec, t.log)
  {
    StepKeeps(env, s, e);
    StepGrows(env, s, e);
  }

  lemma CancelsKeeps(env: Env, f: File, m: Move)
    requires Orderly(env, f) && Enabled(f, m) && m.Cancels?
    ensures Orderly(env, Moved(env, f, m))
  {
    var k0 := IndexOf(f.records, m.id);
    WithoutOne(f.records, k0);
    WithoutFinds(f.records, m.id);
    LinkRemoved(env, f.records, k0);
    var rs := f.records[..k0] + f.records[k0 + 1..];
    forall k | 0 <= k < |rs|
      ensures rs[k].taskId in f.logs && Settled(env, rs[k], f.logs[rs[k].taskId])
    {
      OneGone(f.records, k0, k);
    }
  }

  lemma MoveKeeps(env: Env, f: File, m: Move)
    requires Faithful(env) && Orderly(env, f) && Enabled(f, m)
    ensures Orderly(env, Moved(env, f, m))
  {
    match m
    case Opens(_, _, _, _) => OpensKeeps(env, f, m);
    case Delivers(_, _) => DeliversKeeps(env, f, m);
    case Cancels(_) => CancelsKeeps(env, f, m);
  }

  // ------------------------------------------------------------- whole runs

  lemma {:induction false} RunStaysOrderly(env: Env, f: File, moves: seq<Move>)
    requires Faithful(env) && Orderly(env, f) && Legal(env, f, moves)
    ensures Orderly(env, After(env, f, moves))
    decreases |moves|
  {
    if moves != [] {
      MoveKeeps(env, f, moves[0]);
      RunStaysOrderly(env, Moved(env, f, moves[0]), moves[1..]);
    }
  }

  /** A finished task's record never changes again, so neither does one that is followed. */
  lemma {:induction false} FinishedIsFinal(env: Env, f: File, moves: seq<Move>, id: string)
    requires Faithful(env) && Orderly(env, f) && Legal(env, f, moves)
    requires Find(f.records, id).Some? && Find(f.records, id).value.state.Terminal()
    ensures Find(After(env, f, moves).records, id) == Find(f.records, id)
    decreases |moves|
  {
    if moves != [] {
      var m := moves[0];
      var g := Moved(env, f, m);
      var k := IndexOf(f.records, id);
      MoveKeeps(env, f, m);
      match m {
        case Opens(_, _, _, _) =>
          OpensKeeps(env, f, m);
          UniqueFind(g.records, k);
        case Delivers(_, _) =>
          DeliversKeeps(env, f, m);
          UniqueFind(g.records, k);
        case Cancels(_) =>
          WithoutFinds(f.records, m.id);
          assert f.records[k] in g.records;
          var i :| 0 <= i < |g.records| && g.records[i] == f.records[k];
          UniqueFind(g.records, i);
      }
      FinishedIsFinal(env, g, moves[1..], id);
    }
  }

  /** Record a is n follow-up links above record d. */
  ghost predicate Ancestor(records: seq<TaskRecord>, a: nat, d: nat, n: nat)
    requires a < |records| && d < |records|
    decreases n
  {
    if n == 0 then a == d
    else
      && records[d].followUpOf != ""
      && exists j: nat | j < |records| ::
           records[j].taskId == records[d].followUpOf && Ancestor(records, a, j, n - 1)
  }

  lemma ParentIsPrefix(env: Env, records: seq<TaskRecord>, j: nat, d: nat)
    requires Unique(records) && j < |records| && d < |records|
    requires InheritsEarlier(env, records, d) && records[j].taskId == records[d].followUpOf
    ensures j < d && records[j].state.Terminal() && records[j].turns <= records[d].turns
  {
    var i :| 0 <= i < d && Inherits(env, records[i], records[d]);
    assert i == j;
    assert records[j].turns <= Inheritance(env, records[j]);
  }

  lemma {:induction false} AncestorsArePrefixes(env: Env, records: seq<TaskRecord>, a: nat, d: nat, n: nat)
    requires Unique(records) && Linked(env, records)
    requires a < |records| && d < |records| && Ancestor(records, a, d, n)
    ensures records[a].turns <= records[d].turns
    ensures n > 0 ==> a < d && records[a].state.Terminal()
    decreases n
  {
    if n > 0 {
      var j: nat :| j < |records| && records[j].taskId == records[d].followUpOf && Ancestor(records, a, j, n - 1);
      AncestorsArePrefixes(env, records, a, j, n - 1);
      ParentIsPrefix(env, records, j, d);
    }
  }

  /**
   * Over every run of a task file: each ancestor's transcript is a prefix of its descendant's, however
   * long the chain; the links form no circle; and a task's own rounds start behind what it inherited.
   */
  lemma LineageHolds(env: Env, moves: seq<Move>, a: nat, d: nat, n: nat)
    requires Faithful(env) && Legal(env, File([], map[]), moves)
    requires var rs := After(env, File([], map[]), moves).records;
             a < |rs| && d < |rs| && Ancestor(rs, a, d, n)
    ensures var rs := After(env, File([], map[]), moves).records;
            && rs[a].turns <= rs[d].turns
            && (n > 0 ==> a != d && rs[a].state.Terminal())
            && rs[d].baseTurns <= |rs[d].turns|
  {
    var f := After(env, File([], map[]), moves);
    RunStaysOrderly(env, File([], map[]), moves);
    AncestorsArePrefixes(env, f.records, a, d, n);
    assert Settled(env, f.records[d], f.logs[f.records[d].taskId]);
  }
}
