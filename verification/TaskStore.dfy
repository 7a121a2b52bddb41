/** The task file of one supervisor: a list of records used as a map from task id to record. */
module TaskStore {
  import opened Basics
  import opened Tasks

  function Find(records: seq<TaskRecord>, id: string): Option<TaskRecord> {
    if records == [] then None
    else if records[0].taskId == id then Some(records[0])
    else Find(records[1..], id)
  }

  /** The first record of the same task is replaced; a new task goes to the end. */
  function Saved(records: seq<TaskRecord>, rec: TaskRecord): seq<TaskRecord> {
    if records == [] then [rec]
    else if records[0].taskId == rec.taskId then [rec] + records[1..]
    else [records[0]] + Saved(records[1..], rec)
  }

  function Without(records: seq<TaskRecord>, id: string): seq<TaskRecord> {
    if records == [] then []
    else Without(Init(records), id) + if Last(records).taskId == id then [] else [Last(records)]
  }

  function Ids(records: seq<TaskRecord>): (ids: seq<string>)
    ensures |ids| == |records|
  {
    seq(|records|, k requires 0 <= k < |records| => records[k].taskId)
  }

  ghost predicate Unique(records: seq<TaskRecord>) {
    forall j, k | 0 <= j < k < |records| :: records[j].taskId != records[k].taskId
  }

  // ------------------------------------------------------ the list is a map

  lemma {:induction false} FindIsMember(records: seq<TaskRecord>, id: string)
    ensures match Find(records, id)
            case Some(r) => r in records && r.taskId == id
            case None => forall r | r in records :: r.taskId != id
  {
    if records != [] && records[0].taskId != id {
      FindIsMember(records[1..], id);
      assert records == [records[0]] + records[1..];
    }
  }

  lemma UniqueFind(records: seq<TaskRecord>, k: nat)
    requires Unique(records) && k < |records|
    ensures Find(records, records[k].taskId) == Some(records[k])
  {
    FindIsMember(records, records[k].taskId);
  }

  /** Saving changes what is found under one id only. */
  lemma {:induction false} SavedFinds(records: seq<TaskRecord>, rec: TaskRecord, id: string)
    ensures Find(Saved(records, rec), id) == if id == rec.taskId then Some(rec) else Find(records, id)
  {
    if records != [] && records[0].taskId != rec.taskId {
      SavedFinds(records[1..], rec, id);
      assert Saved(records, rec)[1..] == Saved(records[1..], rec);
    }
  }

  /** Saving moves no other record. */
  lemma {:induction false} SavedKeepsPlaces(records: seq<TaskRecord>, rec: TaskRecord)
    ensures rec.taskId !in Ids(records) ==> Saved(records, rec) == records + [rec]
    ensures rec.taskId in Ids(records) ==> Ids(Saved(records, rec)) == Ids(records)
  {
    if records != [] && records[0].taskId != rec.taskId {
      SavedKeepsPlaces(records[1..], rec);
      assert Ids(records) == [records[0].taskId] + Ids(records[1..]);
    } else if records != [] {
      assert Ids(records)[0] == rec.taskId;
    }
  }

  lemma {:induction false} SavedStaysUnique(records: seq<TaskRecord>, rec: TaskRecord)
    requires Unique(records)
    ensures Unique(Saved(records, rec))
    ensures forall r | r in Saved(records, rec) :: r == rec || r in records
  {
    if records != [] && records[0].taskId != rec.taskId {
      SavedStaysUnique(records[1..], rec);
      assert Saved(records, rec)[1..] == Saved(records[1..], rec);
      forall k | 1 <= k < |Saved(records, rec)|
        ensures Saved(records, rec)[k].taskId != records[0].taskId
      {
        assert Saved(records, rec)[k] in Saved(records[1..], rec);
      }
    }
  }

  /** Saving, from position i on: there, or further on. */
  lemma SavedFrom(records: seq<TaskRecord>, rec: TaskRecord, i: nat)
    requires i < |records|
    ensures records[i].taskId == rec.taskId ==>
              records[..i] + Saved(records[i..], rec) == records[i := rec]
    ensures records[i].taskId != rec.taskId ==>
              records[..i] + Saved(records[i..], rec) == records[..i + 1] + Saved(records[i + 1..], rec)
  {
    assert records[i..][1..] == records[i + 1..];
    assert records[..i + 1] == records[..i] + [records[i]];
  }

  /** Only the last of two saves of a task is seen. */
  lemma {:induction false} SaveTwice(records: seq<TaskRecord>, a: TaskRecord, b: TaskRecord)
    requires a.taskId == b.taskId
    ensures Saved(Saved(records, a), b) == Saved(records, b)
  {
    if records != [] && records[0].taskId != a.taskId {
      SaveTwice(records[1..], a, b);
      assert Saved(records, a)[1..] == Saved(records[1..], a);
    }
  }

  lemma {:induction false} WithoutFinds(records: seq<TaskRecord>, id: string)
    requires Unique(records)
    ensures Unique(Without(records, id))
    ensures forall r :: r in Without(records, id) <==> r in records && r.taskId != id
  {
    if records != [] {
      SplitLast(records);
      WithoutFinds(Init(records), id);
    }
  }

  class Store {
    var records: seq<TaskRecord>
    ghost var saves: seq<TaskRecord>  // every record ever saved, oldest first

    ghost predicate Valid()
      reads this
    {
      Unique(records)
    }

    constructor ()
      ensures Valid() && records == [] && saves == []
    {
      records, saves := [], [];
    }

    method Save(rec: TaskRecord)
      requires Valid()
      modifies this
      ensures Valid() && records == Saved(old(records), rec) && saves == old(saves) + [rec]
    {
      SavedStaysUnique(records, rec);
      saves := saves + [rec];
      var i := 0;
      while i < |records|
        invariant 0 <= i <= |records| && records == old(records) && saves == old(saves) + [rec]
        invariant Saved(records, rec) == records[..i] + Saved(records[i..], rec)
      {
        SavedFrom(records, rec, i);
        if records[i].taskId == rec.taskId {
          records := records[i := rec];
          return;
        }
        i := i + 1;
      }
      assert records[..i] == records;
      records := records + [rec];
    }

    method Load(id: string) returns (r: Option<TaskRecord>)
      ensures r == Find(records, id)
    {
      var i := 0;
      while i < |records|
        invariant 0 <= i <= |records|
        invariant Find(records, id) == Find(records[i..], id)
      {
        if records[i].taskId == id {
          return Some(records[i]);
        }
        i := i + 1;
      }
      return None;
    }

    /** Compacts the loaded list in place, and writes it back only if something went. */
    method Delete(id: string)
      requires Valid()
      modifies this`records
      ensures Valid() && records == Without(old(records), id)
    {
      WithoutFinds(records, id);
      var loaded := records;
      var n := |loaded|;
      var buffer := new TaskRecord[n](i requires 0 <= i < n => loaded[i]);
      assert buffer[..] == loaded;
      var kept := Compact(buffer, id);
      if kept == n {
        return;
      }
      records := buffer[..kept];
    }
  }

  /** Moves the records of other tasks to the front, in order. */
  method Compact(buffer: array<TaskRecord>, id: string) returns (kept: nat)
    modifies buffer
    ensures kept <= buffer.Length && buffer[..kept] == Without(old(buffer[..]), id)
    ensures kept == buffer.Length ==> Without(old(buffer[..]), id) == old(buffer[..])
  {
    ghost var loaded := buffer[..];
    kept := 0;
    for i := 0 to buffer.Length
      invariant 0 <= kept <= i
      invariant buffer[..kept] == Without(loaded[..i], id)
      invariant forall k | i <= k < buffer.Length :: buffer[k] == loaded[k]
      invariant kept == i ==> Without(loaded[..i], id) == loaded[..i]
    {
      WithoutNext(loaded, i, id);
      if buffer[i].taskId != id {
        buffer[kept] := buffer[i];
        kept := kept + 1;
        assert buffer[..kept] == buffer[..kept - 1] + [loaded[i]];
      }
    }
    assert loaded[..buffer.Length] == loaded;
  }

  lemma WithoutNext(records: seq<TaskRecord>, i: nat, id: string)
    requires i < |records|
    ensures Without(records[..i + 1], id)
         == Without(records[..i], id) + if records[i].taskId == id then [] else [records[i]]
    ensures records[..i + 1] == records[..i] + [records[i]]
  {
    assert Init(records[..i + 1]) == records[..i];
  }
}
