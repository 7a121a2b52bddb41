/**
 * The task list of the user interface as a forest: a task hangs under the one that delegated it or
 * that it follows up, newest roots first. The traversal shares one `seen` set over both kinds of link.
 */
module TaskForest {
  import opened Basics

  /** A listed task; `delegations` are task ids, `followUpOf` is a key or "". */
  datatype Task = Task(id: string, verdictId: string, delegations: seq<string>, followUpOf: string)
  {
    function Key(): string {
      if verdictId != "" then verdictId else id
    }
  }

  datatype Tree = Node(task: nat, children: seq<Tree>)

  /** Tasks by position; each has its delegated and its following tasks, in order. */
  datatype Graph = Graph(delegated: seq<seq<nat>>, followed: seq<seq<nat>>)
  {
    ghost predicate Valid() {
      && |delegated| == |followed|
      && (forall t, k | 0 <= t < |delegated| && 0 <= k < |delegated[t]| :: delegated[t][k] < |delegated|)
      && (forall t, k | 0 <= t < |followed| && 0 <= k < |followed[t]| :: followed[t][k] < |followed|)
    }

    function Edges(t: nat): (cs: seq<nat>)
      requires Valid() && t < |delegated|
      ensures forall k | 0 <= k < |cs| :: cs[k] < |delegated|
    {
      delegated[t] + followed[t]
    }

    ghost function Nodes(): set<nat> {
      Below(|delegated|)
    }
  }

  ghost function Below(n: nat): (s: set<nat>)
    ensures forall t: nat :: t in s <==> t < n
  {
    if n == 0 then {} else Below(n - 1) + {n - 1}
  }

  ghost predicate Listed(g: Graph, cs: seq<nat>) {
    forall k | 0 <= k < |cs| :: cs[k] < |g.delegated|
  }

  ghost predicate AllIn(cs: seq<nat>, s: set<nat>) {
    forall k | 0 <= k < |cs| :: cs[k] in s
  }

  // --------------------------------------------------------- the traversal

  /** Grows a tree from each candidate not seen yet, in order, sharing what has been seen. */
  ghost function Grow(g: Graph, cs: seq<nat>, seen: set<nat>): (r: (seq<Tree>, set<nat>))
    requires g.Valid() && Listed(g, cs)
    ensures seen <= r.1
    decreases g.Nodes() - seen, |cs|
  {
    if cs == [] then ([], seen)
    else if cs[0] in seen then Grow(g, cs[1..], seen)
    else
      assert cs[0] in g.Nodes() - seen;
      var (children, seen1) := Grow(g, g.Edges(cs[0]), seen + {cs[0]});
      var (rest, seen2) := Grow(g, cs[1..], seen1);
      ([Node(cs[0], children)] + rest, seen2)
  }

  /** All tasks of a forest, depth first. */
  function Flatten(forest: seq<Tree>): seq<nat> {
    if forest == [] then []
    else [forest[0].task] + Flatten(forest[0].children) + Flatten(forest[1..])
  }

  ghost predicate NoDuplicates(s: seq<nat>) {
    forall j, k | 0 <= j < k < |s| :: s[j] != s[k]
  }

  /** Closed under links. */
  ghost predicate Closed(g: Graph, s: set<nat>)
    requires g.Valid()
  {
    forall t | t in s && t < |g.delegated| :: AllIn(g.Edges(t), s)
  }

  lemma FlattenParts(a: seq<nat>, b: seq<nat>, x: nat)
    requires NoDuplicates(a) && NoDuplicates(b)
    requires x !in a && x !in b && (forall y | y in a :: y !in b)
    ensures NoDuplicates([x] + a + b)
  {
    var s := [x] + a + b;
    forall j, k | 0 <= j < k < |s|
      ensures s[j] != s[k]
    {
      assert k <= |a| ==> s[k] == a[k - 1] && s[k] in a;
      assert k > |a| ==> s[k] == b[k - 1 - |a|] && s[k] in b;
      assert 0 < j <= |a| ==> s[j] == a[j - 1] && s[j] in a;
      assert j > |a| ==> s[j] == b[j - 1 - |a|];
    }
  }

  /** The forest lists exactly what the traversal newly saw, each task once. */
  lemma {:induction false} GrowListsOnce(g: Graph, cs: seq<nat>, seen: set<nat>)
    requires g.Valid() && Listed(g, cs)
    ensures var (forest, seen') := Grow(g, cs, seen);
            && NoDuplicates(Flatten(forest))
            && (forall x :: x in Flatten(forest) <==> x in seen' && x !in seen)
    decreases g.Nodes() - seen, |cs|
  {
    if cs == [] {
    } else if cs[0] in seen {
      GrowListsOnce(g, cs[1..], seen);
    } else {
      assert cs[0] in g.Nodes() - seen;
      var (children, seen1) := Grow(g, g.Edges(cs[0]), seen + {cs[0]});
      var (rest, seen2) := Grow(g, cs[1..], seen1);
      GrowListsOnce(g, g.Edges(cs[0]), seen + {cs[0]});
      GrowListsOnce(g, cs[1..], seen1);
      FlattenParts(Flatten(children), Flatten(rest), cs[0]);
      assert ([Node(cs[0], children)] + rest)[1..] == rest;
    }
  }

  /** Every candidate ends up seen, and so does everything linked from what was newly seen. */
  lemma {:induction false} GrowCloses(g: Graph, cs: seq<nat>, seen: set<nat>)
    requires g.Valid() && Listed(g, cs)
    ensures var seen' := Grow(g, cs, seen).1;
            && AllIn(cs, seen')
            && (forall t | t in seen' && t !in seen && t < |g.delegated| :: AllIn(g.Edges(t), seen'))
    decreases g.Nodes() - seen, |cs|
  {
    if cs == [] {
    } else if cs[0] in seen {
      GrowCloses(g, cs[1..], seen);
    } else {
      assert cs[0] in g.Nodes() - seen;
      var seen1 := Grow(g, g.Edges(cs[0]), seen + {cs[0]}).1;
      GrowCloses(g, g.Edges(cs[0]), seen + {cs[0]});
      GrowCloses(g, cs[1..], seen1);
    }
  }

  /** Only what is linked from the candidates is seen. */
  lemma {:induction false} GrowStaysInside(g: Graph, cs: seq<nat>, seen: set<nat>, s: set<nat>)
    requires g.Valid() && Listed(g, cs) && Closed(g, s) && AllIn(cs, s)
    ensures forall x | x in Grow(g, cs, seen).1 && x !in seen :: x in s
    decreases g.Nodes() - seen, |cs|
  {
    if cs == [] {
    } else if cs[0] in seen {
      GrowStaysInside(g, cs[1..], seen, s);
    } else {
      assert cs[0] in g.Nodes() - seen;
      var seen1 := Grow(g, g.Edges(cs[0]), seen + {cs[0]}).1;
      GrowStaysInside(g, g.Edges(cs[0]), seen + {cs[0]}, s);
      GrowStaysInside(g, cs[1..], seen1, s);
    }
  }

  lemma {:induction false} GrowConcat(g: Graph, a: seq<nat>, b: seq<nat>, seen: set<nat>)
    requires g.Valid() && Listed(g, a) && Listed(g, b)
    ensures Listed(g, a + b)
    ensures var (fa, sa) := Grow(g, a, seen);
            var (fb, sb) := Grow(g, b, sa);
            Grow(g, a + b, seen) == (fa + fb, sb)
    decreases g.Nodes() - seen, |a|
  {
    if a == [] {
      assert a + b == b && [] + Grow(g, b, seen).0 == Grow(g, b, seen).0;
    } else {
      assert (a + b)[1..] == a[1..] + b && (a + b)[0] == a[0];
      if a[0] in seen {
        GrowConcat(g, a[1..], b, seen);
      } else {
        assert a[0] in g.Nodes() - seen;
        var (children, seen1) := Grow(g, g.Edges(a[0]), seen + {a[0]});
        GrowConcat(g, a[1..], b, seen1);
        var (rest, seen2) := Grow(g, a[1..], seen1);
        var (fb, sb) := Grow(g, b, seen2);
        assert [Node(a[0], children)] + (rest + fb) == [Node(a[0], children)] + rest + fb;
      }
    }
  }

  // ------------------------------------------------------ order and shape

  function Heads(forest: seq<Tree>): seq<nat> {
    if forest == [] then [] else [forest[0].task] + Heads(forest[1..])
  }

  /** a is b with some elements left out. */
  ghost predicate Within(a: seq<nat>, b: seq<nat>) {
    a == [] || (b != [] && ((a[0] == b[0] && Within(a[1..], b[1..])) || Within(a, b[1..])))
  }

  /** Every task hangs under one that links to it, siblings in the order of the links. */
  ghost predicate Shaped(g: Graph, forest: seq<Tree>)
    requires g.Valid()
  {
    forest == [] ||
    (var t := forest[0];
     && t.task < |g.delegated|
     && Within(Heads(t.children), g.Edges(t.task))
     && Shaped(g, t.children)
     && Shaped(g, forest[1..]))
  }

  lemma {:induction false} GrowShapes(g: Graph, cs: seq<nat>, seen: set<nat>)
    requires g.Valid() && Listed(g, cs)
    ensures Shaped(g, Grow(g, cs, seen).0) && Within(Heads(Grow(g, cs, seen).0), cs)
    decreases g.Nodes() - seen, |cs|
  {
    if cs == [] {
    } else if cs[0] in seen {
      GrowShapes(g, cs[1..], seen);
    } else {
      assert cs[0] in g.Nodes() - seen;
      var (children, seen1) := Grow(g, g.Edges(cs[0]), seen + {cs[0]});
      var (rest, seen2) := Grow(g, cs[1..], seen1);
      GrowShapes(g, g.Edges(cs[0]), seen + {cs[0]});
      GrowShapes(g, cs[1..], seen1);
      assert ([Node(cs[0], children)] + rest)[1..] == rest;
    }
  }

  // ------------------------------------------------------------- the forest

  ghost predicate HasParent(g: Graph, c: nat)
    requires g.Valid()
  {
    exists t | 0 <= t < |g.delegated| :: c in g.Edges(t)
  }

  /** The tasks without a listed parent among the first n, newest first. */
  ghost function Roots(g: Graph, n: nat): seq<nat>
    requires g.Valid() && n <= |g.delegated|
  {
    if n == 0 then []
    else (if HasParent(g, n - 1) then [] else [n - 1]) + Roots(g, n - 1)
  }

  lemma {:induction false} RootsAre(g: Graph, n: nat)
    requires g.Valid() && n <= |g.delegated|
    ensures forall c :: c in Roots(g, n) <==> 0 <= c < n && !HasParent(g, c)
    ensures forall j, k | 0 <= j < k < |Roots(g, n)| :: Roots(g, n)[j] > Roots(g, n)[k]
    ensures Listed(g, Roots(g, n))
    ensures forall k | 0 <= k < |Roots(g, n)| :: Roots(g, n)[k] in Roots(g, n)
  {
    if n > 0 {
      RootsAre(g, n - 1);
      var rest := Roots(g, n - 1);
      forall k | 0 <= k < |rest|
        ensures rest[k] < n - 1
      {
        assert rest[k] in rest;
      }
    }
  }

  ghost function Forest(g: Graph): seq<Tree>
    requires g.Valid()
  {
    RootsAre(g, |g.delegated|);
    Grow(g, Roots(g, |g.delegated|), {}).0
  }

  /** A root is never reached from another task. */
  lemma RootsStayUnseen(g: Graph, before: seq<nat>, r: nat)
    requires g.Valid() && Listed(g, before) && r < |g.delegated| && !HasParent(g, r) && r !in before
    ensures r !in Grow(g, before, {}).1
  {
    var others := g.Nodes() - {r};
    forall t | t in others
      ensures AllIn(g.Edges(t), others)
    {
      forall k | 0 <= k < |g.Edges(t)|
        ensures g.Edges(t)[k] in others
      {
        assert g.Edges(t)[k] in g.Edges(t);
      }
    }
    GrowStaysInside(g, before, {}, others);
  }

  /** The roots of the forest are all the tasks without a listed parent, newest first. */
  lemma {:induction false} RootsGrowAll(g: Graph, before: seq<nat>, roots: seq<nat>)
    requires g.Valid() && Listed(g, before) && Listed(g, roots)
    requires NoDuplicates(before + roots) && forall k | 0 <= k < |before + roots| :: !HasParent(g, (before + roots)[k])
    ensures Heads(Grow(g, roots, Grow(g, before, {}).1).0) == roots
    decreases |roots|
  {
    if roots != [] {
      assert roots[0] == (before + roots)[|before|];
      forall k | 0 <= k < |before|
        ensures before[k] != roots[0]
      {
        assert (before + roots)[k] == before[k];
      }
      RootsStayUnseen(g, before, roots[0]);
      GrowConcat(g, before, [roots[0]], {});
      assert before + [roots[0]] + roots[1..] == before + roots;
      RootsGrowAll(g, before + [roots[0]], roots[1..]);
      var seen := Grow(g, before, {}).1;
      var (children, seen1) := Grow(g, g.Edges(roots[0]), seen + {roots[0]});
      assert [roots[0]][1..] == [] && [Node(roots[0], children)] + [] == [Node(roots[0], children)];
      assert Grow(g, [roots[0]], seen) == ([Node(roots[0], children)], seen1);
      assert ([Node(roots[0], children)] + Grow(g, roots[1..], seen1).0)[1..] == Grow(g, roots[1..], seen1).0;
    }
  }

  /** Reachable from the parentless tasks: in every closed set that holds them. */
  ghost predicate Reachable(g: Graph, x: nat)
    requires g.Valid()
  {
    forall s: set<nat> | Closed(g, s) && AllIn(Roots(g, |g.delegated|), s) :: x in s
  }

  /**
   * For every graph of links, circles included: the forest shows each task reachable from a parentless
   * one exactly once and no other; its roots are all the parentless tasks, newest first; and each task
   * hangs under one that links to it, siblings in the order of the links.
   */
  lemma ForestShowsReachableOnce(g: Graph)
    requires g.Valid()
    ensures NoDuplicates(Flatten(Forest(g)))
    ensures forall x :: x in Flatten(Forest(g)) <==> Reachable(g, x)
    ensures Heads(Forest(g)) == Roots(g, |g.delegated|)
    ensures Shaped(g, Forest(g))
  {
    var roots := Roots(g, |g.delegated|);
    RootsAre(g, |g.delegated|);
    GrowListsOnce(g, roots, {});
    GrowCloses(g, roots, {});
    GrowShapes(g, roots, {});
    assert [] + roots == roots;
    RootsGrowAll(g, [], roots);
    var seen := Grow(g, roots, {}).1;
    assert Closed(g, seen);
    forall x | x in seen
      ensures Reachable(g, x)
    {
      forall s: set<nat> | Closed(g, s) && AllIn(roots, s)
        ensures x in s
      {
        GrowStaysInside(g, roots, {}, s);
      }
    }
  }

  /** Ages: a link always leads to a task of greater age. */
  ghost predicate Acyclic(g: Graph, age: seq<nat>)
    requires g.Valid()
  {
    && |age| == |g.delegated|
    && forall t, c | 0 <= t < |age| && 0 <= c < |age| && c in g.Edges(t) :: age[t] < age[c]
  }

  lemma {:induction false} AcyclicReaches(g: Graph, age: seq<nat>, x: nat)
    requires g.Valid() && Acyclic(g, age) && x < |age|
    ensures Reachable(g, x)
    decreases age[x]
  {
    var roots := Roots(g, |g.delegated|);
    RootsAre(g, |g.delegated|);
    forall s: set<nat> | Closed(g, s) && AllIn(roots, s)
      ensures x in s
    {
      if HasParent(g, x) {
        var t :| 0 <= t < |age| && x in g.Edges(t);
        AcyclicReaches(g, age, t);
        var k :| 0 <= k < |g.Edges(t)| && g.Edges(t)[k] == x;
        assert AllIn(g.Edges(t), s);
      } else {
        assert x in roots;
        var k :| 0 <= k < |roots| && roots[k] == x;
      }
    }
  }

  /** Without circles every listed task is shown, exactly once. */
  lemma AcyclicForestIsComplete(g: Graph, age: seq<nat>)
    requires g.Valid() && Acyclic(g, age)
    ensures NoDuplicates(Flatten(Forest(g)))
    ensures forall x :: x in Flatten(Forest(g)) <==> 0 <= x < |g.delegated|
  {
    ForestShowsReachableOnce(g);
    forall x: nat | x < |g.delegated|
      ensures Reachable(g, x)
    {
      AcyclicReaches(g, age, x);
    }
    forall x: nat | Reachable(g, x)
      ensures x < |g.delegated|
    {
      RootsAre(g, |g.delegated|);
      assert Closed(g, g.Nodes()) && AllIn(Roots(g, |g.delegated|), g.Nodes());
    }
  }

  // ------------------------------------------------- from the list to a graph

  /** First position of each task id, and of each key. */
  function IdIndex(tasks: seq<Task>): map<string, nat> {
    if tasks == [] then map[]
    else
      var m := IdIndex(Init(tasks));
      if Last(tasks).id in m then m else m[Last(tasks).id := |tasks| - 1]
  }

  function KeyIndex(tasks: seq<Task>): map<string, nat> {
    if tasks == [] then map[]
    else
      var m := KeyIndex(Init(tasks));
      if Last(tasks).Key() in m then m else m[Last(tasks).Key() := |tasks| - 1]
  }

  lemma {:induction false} IndexIsBounded(tasks: seq<Task>)
    ensures forall id | id in IdIndex(tasks) :: IdIndex(tasks)[id] < |tasks|
    ensures forall key | key in KeyIndex(tasks) :: KeyIndex(tasks)[key] < |tasks|
  {
    if tasks != [] {
      IndexIsBounded(Init(tasks));
    }
  }

  lemma {:induction false} IndexNames(tasks: seq<Task>)
    ensures forall id | id in IdIndex(tasks) :: IdIndex(tasks)[id] < |tasks| && tasks[IdIndex(tasks)[id]].id == id
    ensures forall key | key in KeyIndex(tasks) ::
              KeyIndex(tasks)[key] < |tasks| && tasks[KeyIndex(tasks)[key]].Key() == key
  {
    if tasks != [] {
      IndexNames(Init(tasks));
    }
  }

  lemma {:induction false} UniqueIndex(tasks: seq<Task>, k: nat)
    requires UniqueTasks(tasks) && k < |tasks|
    ensures tasks[k].id in IdIndex(tasks) && IdIndex(tasks)[tasks[k].id] == k
    ensures tasks[k].Key() in KeyIndex(tasks) && KeyIndex(tasks)[tasks[k].Key()] == k
  {
    if k == |tasks| - 1 {
      IndexNames(Init(tasks));
    } else {
      UniqueIndex(Init(tasks), k);
    }
  }

  /** The listed tasks among the delegations of task t, in order. */
  function DelegatedBy(byId: map<string, nat>, t: nat, ids: seq<string>): seq<nat> {
    if ids == [] then []
    else
      DelegatedBy(byId, t, Init(ids)) +
      if Last(ids) in byId && byId[Last(ids)] != t then [byId[Last(ids)]] else []
  }

  lemma {:induction false} DelegatedByIs(byId: map<string, nat>, t: nat, ids: seq<string>, c: nat)
    ensures c in DelegatedBy(byId, t, ids) <==> c != t && exists id | id in ids && id in byId :: byId[id] == c
  {
    if ids != [] {
      SplitLast(ids);
      DelegatedByIs(byId, t, Init(ids), c);
      if Last(ids) in byId && byId[Last(ids)] == c {
        assert Last(ids) in ids;
      }
      if id :| id in ids && id in byId && byId[id] == c {
        assert id in Init(ids) || id == Last(ids);
      }
    }
  }

  lemma {:induction false} DelegatedByBound(byId: map<string, nat>, t: nat, ids: seq<string>, n: nat)
    requires forall id | id in byId :: byId[id] < n
    ensures forall k | 0 <= k < |DelegatedBy(byId, t, ids)| :: DelegatedBy(byId, t, ids)[k] < n
  {
    if ids != [] {
      DelegatedByBound(byId, t, Init(ids), n);
    }
  }

  /** The listed task that task u follows up, if any. */
  function Followed(tasks: seq<Task>, byKey: map<string, nat>, u: nat): Option<nat>
    requires u < |tasks|
  {
    var key := tasks[u].followUpOf;
    if key != "" && key in byKey && byKey[key] != u then Some(byKey[key]) else None
  }

  /** The first n tasks that follow up task p, in list order. */
  function FollowersOf(tasks: seq<Task>, byKey: map<string, nat>, p: nat, n: nat): seq<nat>
    requires n <= |tasks|
  {
    if n == 0 then []
    else
      FollowersOf(tasks, byKey, p, n - 1) + if Followed(tasks, byKey, n - 1) == Some(p) then [n - 1] else []
  }

  lemma {:induction false} FollowersOfIs(tasks: seq<Task>, byKey: map<string, nat>, p: nat, n: nat)
    requires n <= |tasks|
    ensures forall k | 0 <= k < |FollowersOf(tasks, byKey, p, n)| :: FollowersOf(tasks, byKey, p, n)[k] < n
    ensures forall c: nat :: c in FollowersOf(tasks, byKey, p, n) <==>
              c < n && Followed(tasks, byKey, c) == Some(p)
  {
    if n > 0 {
      FollowersOfIs(tasks, byKey, p, n - 1);
    }
  }

  function DelegatedLists(tasks: seq<Task>): (lists: seq<seq<nat>>)
    ensures |lists| == |tasks|
    ensures forall t | 0 <= t < |tasks| :: lists[t] == DelegatedBy(IdIndex(tasks), t, tasks[t].delegations)
  {
    seq(|tasks|, t requires 0 <= t < |tasks| => DelegatedBy(IdIndex(tasks), t, tasks[t].delegations))
  }

  function FollowedLists(tasks: seq<Task>): (lists: seq<seq<nat>>)
    ensures |lists| == |tasks|
    ensures forall p | 0 <= p < |tasks| :: lists[p] == FollowersOf(tasks, KeyIndex(tasks), p, |tasks|)
  {
    seq(|tasks|, p requires 0 <= p < |tasks| => FollowersOf(tasks, KeyIndex(tasks), p, |tasks|))
  }

  function GraphOf(tasks: seq<Task>): (g: Graph)
    ensures |g.delegated| == |g.followed| == |tasks|
  {
    Graph(DelegatedLists(tasks), FollowedLists(tasks))
  }

  lemma GraphIsValid(tasks: seq<Task>)
    ensures GraphOf(tasks).Valid()
  {
    var g := GraphOf(tasks);
    IndexIsBounded(tasks);
    forall t, k | 0 <= t < |tasks| && 0 <= k < |g.delegated[t]|
      ensures g.delegated[t][k] < |tasks|
    {
      DelegatedByBound(IdIndex(tasks), t, tasks[t].delegations, |tasks|);
    }
    forall t, k | 0 <= t < |tasks| && 0 <= k < |g.followed[t]|
      ensures g.followed[t][k] < |tasks|
    {
      FollowersOfIs(tasks, KeyIndex(tasks), t, |tasks|);
    }
  }

  ghost predicate UniqueTasks(tasks: seq<Task>) {
    forall j, k | 0 <= j < k < |tasks| :: tasks[j].id != tasks[k].id && tasks[j].Key() != tasks[k].Key()
  }

  /** The key names the task: by its verdict id, or by its own id if it has none. */
  predicate Names(key: string, task: Task) {
    key == task.verdictId || (task.verdictId == "" && key == task.id)
  }

  /** What a link means: t delegated c, or c follows t up. */
  predicate Parent(tasks: seq<Task>, t: nat, c: nat)
    requires t < |tasks| && c < |tasks|
  {
    t != c && (tasks[c].id in tasks[t].delegations
               || (tasks[c].followUpOf != "" && Names(tasks[c].followUpOf, tasks[t])))
  }

  lemma DelegatedLinks(tasks: seq<Task>, t: nat, c: nat)
    requires UniqueTasks(tasks) && t < |tasks| && c < |tasks|
    ensures c in GraphOf(tasks).delegated[t] <==> c != t && tasks[c].id in tasks[t].delegations
  {
    var byId := IdIndex(tasks);
    UniqueIndex(tasks, c);
    IndexNames(tasks);
    DelegatedByIs(byId, t, tasks[t].delegations, c);
    assert GraphOf(tasks).delegated[t] == DelegatedBy(byId, t, tasks[t].delegations);
  }

  lemma FollowedLinks(tasks: seq<Task>, t: nat, c: nat)
    requires UniqueTasks(tasks) && t < |tasks| && c < |tasks|
    ensures c in GraphOf(tasks).followed[t] <==>
              c != t && tasks[c].followUpOf != "" && tasks[c].followUpOf == tasks[t].Key()
  {
    UniqueIndex(tasks, t);
    IndexNames(tasks);
    FollowersOfIs(tasks, KeyIndex(tasks), t, |tasks|);
    assert GraphOf(tasks).followed[t] == FollowersOf(tasks, KeyIndex(tasks), t, |tasks|);
  }

  lemma LinksAreParents(tasks: seq<Task>, t: nat, c: nat)
    requires UniqueTasks(tasks) && t < |tasks| && c < |tasks| && GraphOf(tasks).Valid()
    ensures c in GraphOf(tasks).Edges(t) <==> Parent(tasks, t, c)
  {
    DelegatedLinks(tasks, t, c);
    FollowedLinks(tasks, t, c);
  }

  /** Position p of t's delegations names the listed task c. */
  predicate DelegatedAt(tasks: seq<Task>, t: nat, p: nat, c: nat)
    requires t < |tasks|
  {
    p < |tasks[t].delegations| && c < |tasks| && c != t && tasks[c].id == tasks[t].delegations[p]
  }

  ghost predicate InDelegationOrder(tasks: seq<Task>, t: nat, cs: seq<nat>, places: seq<nat>)
    requires t < |tasks|
  {
    && |places| == |cs|
    && (forall j, k | 0 <= j < k < |places| :: places[j] < places[k])
    && (forall k | 0 <= k < |cs| :: DelegatedAt(tasks, t, places[k], cs[k]))
    && (forall p: nat, c: nat | DelegatedAt(tasks, t, p, c) :: p in places)
  }

  predicate Increasing(cs: seq<nat>) {
    forall j, k | 0 <= j < k < |cs| :: cs[j] < cs[k]
  }

  ghost predicate InListOrder(tasks: seq<Task>, t: nat, cs: seq<nat>)
    requires t < |tasks|
  {
    && Increasing(cs)
    && (forall c: nat :: c in cs <==>
          c < |tasks| && c != t && tasks[c].followUpOf != "" && Names(tasks[c].followUpOf, tasks[t]))
  }

  lemma {:induction false} DelegatedInOrder(tasks: seq<Task>, t: nat, n: nat) returns (places: seq<nat>)
    requires UniqueTasks(tasks) && t < |tasks| && n <= |tasks[t].delegations|
    ensures var cs := DelegatedBy(IdIndex(tasks), t, tasks[t].delegations[..n]);
            && |places| == |cs|
            && (forall j, k | 0 <= j < k < |places| :: places[j] < places[k])
            && (forall k | 0 <= k < |cs| :: places[k] < n && DelegatedAt(tasks, t, places[k], cs[k]))
            && (forall p: nat, c: nat | p < n && DelegatedAt(tasks, t, p, c) :: p in places)
  {
    var ids, byId := tasks[t].delegations, IdIndex(tasks);
    if n == 0 {
      places := [];
      assert ids[..0] == [];
    } else {
      places := DelegatedInOrder(tasks, t, n - 1);
      assert Init(ids[..n]) == ids[..n - 1] && Last(ids[..n]) == ids[n - 1];
      IndexNames(tasks);
      var last := n - 1;
      forall c: nat | DelegatedAt(tasks, t, last, c)
        ensures ids[last] in byId && byId[ids[last]] == c
      {
        UniqueIndex(tasks, c);
      }
      if ids[n - 1] in byId && byId[ids[n - 1]] != t {
        places := places + [n - 1];
      }
    }
  }

  lemma {:induction false} FollowersInOrder(tasks: seq<Task>, byKey: map<string, nat>, p: nat, n: nat)
    requires n <= |tasks|
    ensures Increasing(FollowersOf(tasks, byKey, p, n))
  {
    if n > 0 {
      FollowersOfIs(tasks, byKey, p, n - 1);
      FollowersInOrder(tasks, byKey, p, n - 1);
      var earlier := FollowersOf(tasks, byKey, p, n - 1);
      var cs := FollowersOf(tasks, byKey, p, n);
      assert forall j | 0 <= j < |earlier| :: earlier[j] < n - 1;
      assert cs == earlier || cs == earlier + [n - 1];
    }
  }

  lemma FollowingInOrder(tasks: seq<Task>, t: nat)
    requires UniqueTasks(tasks) && t < |tasks|
    ensures InListOrder(tasks, t, FollowersOf(tasks, KeyIndex(tasks), t, |tasks|))
  {
    var following := FollowersOf(tasks, KeyIndex(tasks), t, |tasks|);
    FollowersInOrder(tasks, KeyIndex(tasks), t, |tasks|);
    FollowersOfIs(tasks, KeyIndex(tasks), t, |tasks|);
    assert GraphOf(tasks).followed[t] == following;
    forall c: nat
      ensures c in following <==>
              c < |tasks| && c != t && tasks[c].followUpOf != "" && Names(tasks[c].followUpOf, tasks[t])
    {
      if c < |tasks| {
        FollowedLinks(tasks, t, c);
      }
    }
  }

  /** A task's links come in order: first the tasks it delegated, as it did, then its follow-ups, as listed. */
  lemma LinksInOrder(tasks: seq<Task>, t: nat) returns (delegated: seq<nat>, places: seq<nat>, following: seq<nat>)
    requires UniqueTasks(tasks) && t < |tasks| && GraphOf(tasks).Valid()
    ensures GraphOf(tasks).Edges(t) == delegated + following
    ensures InDelegationOrder(tasks, t, delegated, places) && InListOrder(tasks, t, following)
  {
    var ids := tasks[t].delegations;
    places := DelegatedInOrder(tasks, t, |ids|);
    assert ids[..|ids|] == ids;
    delegated := DelegatedBy(IdIndex(tasks), t, ids);
    following := FollowersOf(tasks, KeyIndex(tasks), t, |tasks|);
    FollowingInOrder(tasks, t);
  }

  // ------------------------------------------------------------- buildTree

  class Builder {
    const g: Graph
    var seen: set<nat>

    constructor (g: Graph)
      ensures this.g == g && seen == {}
    {
      this.g := g;
      seen := {};
    }

    /** Makes the node of t; recursion marks what it shows in the shared set. */
    method MakeNode(t: nat) returns (tree: Tree)
      requires g.Valid() && t < |g.delegated| && t !in seen
      modifies this
      ensures Grow(g, [t], old(seen)) == ([tree], seen)
      decreases g.Nodes() - seen, 0
    {
      assert t in g.Nodes() - seen;
      ghost var seen0 := seen;
      seen := seen + {t};
      var children := AddUnseen(g.delegated[t]);
      var following := AddUnseen(g.followed[t]);
      GrowConcat(g, g.delegated[t], g.followed[t], seen0 + {t});
      tree := Node(t, children + following);
      assert [t][1..] == [] && [tree] + [] == [tree];
    }

    method AddUnseen(cs: seq<nat>) returns (children: seq<Tree>)
      requires g.Valid() && Listed(g, cs)
      modifies this
      ensures Grow(g, cs, old(seen)) == (children, seen) && old(seen) <= seen
      decreases g.Nodes() - seen, 1
    {
      children := [];
      ghost var seen0 := seen;
      for k := 0 to |cs|
        invariant seen0 <= seen
        invariant Grow(g, cs[..k], seen0) == (children, seen)
      {
        assert cs[..k + 1] == cs[..k] + [cs[k]];
        GrowConcat(g, cs[..k], [cs[k]], seen0);
        if cs[k] !in seen {
          var child := MakeNode(cs[k]);
          children := children + [child];
        } else {
          assert [cs[k]][1..] == [] && children + [] == children;
        }
      }
      assert cs[..|cs|] == cs;
    }
  }

  method IndexIds(tasks: seq<Task>) returns (byId: map<string, nat>)
    ensures byId == IdIndex(tasks)
  {
    byId := map[];
    for i := 0 to |tasks|
      invariant byId == IdIndex(tasks[..i])
    {
      assert Init(tasks[..i + 1]) == tasks[..i] && Last(tasks[..i + 1]) == tasks[i];
      if tasks[i].id !in byId {
        byId := byId[tasks[i].id := i];
      }
    }
    assert tasks[..|tasks|] == tasks;
  }

  method IndexKeys(tasks: seq<Task>) returns (byKey: map<string, nat>)
    ensures byKey == KeyIndex(tasks)
  {
    byKey := map[];
    for i := 0 to |tasks|
      invariant byKey == KeyIndex(tasks[..i])
    {
      assert Init(tasks[..i + 1]) == tasks[..i] && Last(tasks[..i + 1]) == tasks[i];
      if tasks[i].Key() !in byKey {
        byKey := byKey[tasks[i].Key() := i];
      }
    }
    assert tasks[..|tasks|] == tasks;
  }

  /** The delegations of one task that are listed; each is marked as somebody's child. */
  method MarkChildren(byId: map<string, nat>, t: nat, ids: seq<string>, marked: set<nat>)
    returns (cs: seq<nat>, isChild: set<nat>)
    ensures cs == DelegatedBy(byId, t, ids)
    ensures forall c :: c in isChild <==> c in marked || c in cs
  {
    cs, isChild := [], marked;
    for k := 0 to |ids|
      invariant cs == DelegatedBy(byId, t, ids[..k])
      invariant forall c :: c in isChild <==> c in marked || c in cs
    {
      assert Init(ids[..k + 1]) == ids[..k];
      if ids[k] in byId && byId[ids[k]] != t {
        isChild := isChild + {byId[ids[k]]};
        cs := cs + [byId[ids[k]]];
      }
    }
    assert ids[..|ids|] == ids;
  }

  /** c stands in one of the lists. */
  ghost predicate InSome(lists: seq<seq<nat>>, c: nat) {
    exists t | 0 <= t < |lists| :: c in lists[t]
  }

  lemma InSomeAppend(lists: seq<seq<nat>>, cs: seq<nat>, c: nat)
    ensures InSome(lists + [cs], c) <==> InSome(lists, c) || c in cs
  {
    var more := lists + [cs];
    if InSome(lists, c) {
      var t :| 0 <= t < |lists| && c in lists[t];
      assert c in more[t];
    }
    assert more[|lists|] == cs;
  }

  method LinkDelegations(tasks: seq<Task>, byId: map<string, nat>)
    returns (delegated: seq<seq<nat>>, isChild: set<nat>)
    ensures |delegated| == |tasks|
    ensures forall t | 0 <= t < |tasks| :: delegated[t] == DelegatedBy(byId, t, tasks[t].delegations)
    ensures forall c: nat :: c in isChild <==> InSome(delegated, c)
  {
    delegated, isChild := [], {};
    for t := 0 to |tasks|
      invariant |delegated| == t
      invariant forall u | 0 <= u < t :: delegated[u] == DelegatedBy(byId, u, tasks[u].delegations)
      invariant forall c: nat :: c in isChild <==> InSome(delegated, c)
    {
      var cs, marked := MarkChildren(byId, t, tasks[t].delegations, isChild);
      forall c: nat
        ensures c in marked <==> InSome(delegated + [cs], c)
      {
        InSomeAppend(delegated, cs, c);
      }
      delegated, isChild := delegated + [cs], marked;
    }
  }

  method LinkFollowUps(tasks: seq<Task>, byKey: map<string, nat>)
    returns (followed: seq<seq<nat>>, isFollowUp: set<nat>)
    requires forall key | key in byKey :: byKey[key] < |tasks|
    ensures |followed| == |tasks|
    ensures forall p | 0 <= p < |tasks| :: followed[p] == FollowersOf(tasks, byKey, p, |tasks|)
    ensures forall c: nat :: c in isFollowUp <==> c < |tasks| && Followed(tasks, byKey, c).Some?
  {
    followed := seq(|tasks|, p => []);
    isFollowUp := {};
    for u := 0 to |tasks|
      invariant |followed| == |tasks|
      invariant forall p | 0 <= p < |tasks| :: followed[p] == FollowersOf(tasks, byKey, p, u)
      invariant forall c: nat :: c in isFollowUp <==> c < u && Followed(tasks, byKey, c).Some?
    {
      var key := tasks[u].followUpOf;
      var parent := if key != "" && key in byKey && byKey[key] != u then Some(byKey[key]) else None;
      assert parent == Followed(tasks, byKey, u);
      if parent.Some? {
        var p := parent.value;
        followed := followed[p := followed[p] + [u]];
        isFollowUp := isFollowUp + {u};
      }
    }
  }

  lemma FollowMarks(tasks: seq<Task>, byKey: map<string, nat>, followed: seq<seq<nat>>, c: nat)
    requires |followed| == |tasks| && forall key | key in byKey :: byKey[key] < |tasks|
    requires forall p | 0 <= p < |tasks| :: followed[p] == FollowersOf(tasks, byKey, p, |tasks|)
    ensures InSome(followed, c) <==> c < |tasks| && Followed(tasks, byKey, c).Some?
  {
    forall p: nat | p < |tasks|
      ensures c in followed[p] <==> c < |tasks| && Followed(tasks, byKey, c) == Some(p)
    {
      FollowersOfIs(tasks, byKey, p, |tasks|);
    }
    if c < |tasks| && Followed(tasks, byKey, c).Some? {
      var p := Followed(tasks, byKey, c).value;
      assert c in followed[p];
    }
  }

  /** The task list as a forest, newest roots first. */
  method BuildTree(tasks: seq<Task>) returns (forest: seq<Tree>)
    requires UniqueTasks(tasks)
    ensures GraphOf(tasks).Valid() && forest == Forest(GraphOf(tasks))
  {
    GraphIsValid(tasks);
    var byId := IndexIds(tasks);
    var byKey := IndexKeys(tasks);
    IndexIsBounded(tasks);
    var delegated, isChild := LinkDelegations(tasks, byId);
    var followed, isFollowUp := LinkFollowUps(tasks, byKey);
    AssembledGraph(tasks, delegated, followed);
    var g := Graph(delegated, followed);
    forall c: nat | c < |tasks|
      ensures c in isChild || c in isFollowUp <==> HasParent(g, c)
    {
      FollowMarks(tasks, byKey, followed, c);
      ParentMarks(g, c);
    }
    forest := ShowRoots(g, isChild, isFollowUp);
  }

  lemma AssembledGraph(tasks: seq<Task>, delegated: seq<seq<nat>>, followed: seq<seq<nat>>)
    requires |delegated| == |followed| == |tasks|
    requires forall t | 0 <= t < |tasks| :: delegated[t] == DelegatedBy(IdIndex(tasks), t, tasks[t].delegations)
    requires forall p | 0 <= p < |tasks| :: followed[p] == FollowersOf(tasks, KeyIndex(tasks), p, |tasks|)
    ensures Graph(delegated, followed) == GraphOf(tasks)
  {
    assert delegated == DelegatedLists(tasks);
    assert followed == FollowedLists(tasks);
  }

  /** One more root after those already shown. */
  lemma NextRoot(g: Graph, shown: seq<nat>, i: nat, forest: seq<Tree>, seen: set<nat>, tree: Tree, seen': set<nat>)
    requires g.Valid() && Listed(g, shown) && i < |g.delegated|
    requires Grow(g, shown, {}) == (forest, seen) && Grow(g, [i], seen) == ([tree], seen')
    ensures Listed(g, shown + [i]) && Grow(g, shown + [i], {}) == (forest + [tree], seen')
  {
    GrowConcat(g, shown, [i], {});
  }

  lemma UnshownRoot(g: Graph, shown: seq<nat>, i: nat)
    requires g.Valid() && Listed(g, shown) && i < |g.delegated| && !HasParent(g, i)
    requires forall k | 0 <= k < |shown| :: shown[k] > i
    ensures i !in Grow(g, shown, {}).1
  {
    RootsStayUnseen(g, shown, i);
  }

  method ShowRoots(g: Graph, isChild: set<nat>, isFollowUp: set<nat>) returns (forest: seq<Tree>)
    requires g.Valid()
    requires forall c: nat | c < |g.delegated| :: c in isChild || c in isFollowUp <==> HasParent(g, c)
    ensures forest == Forest(g)
  {
    var builder := new Builder(g);
    forest := [];
    ghost var shown: seq<nat> := [];
    var i := |g.delegated|;
    assert [] + Roots(g, i) == Roots(g, i);
    while i > 0
      invariant 0 <= i <= |g.delegated| && builder.g == g
      invariant RootsShown(g, shown, i)
      invariant Grow(g, shown, {}) == (forest, builder.seen)
    {
      i := i - 1;
      NextShown(g, shown, i);
      if i !in isChild && i !in isFollowUp {
        ghost var before := builder.seen;
        var tree := builder.MakeNode(i);
        NextRoot(g, shown, i, forest, before, tree, builder.seen);
        forest := forest + [tree];
        shown := shown + [i];
      }
    }
    assert shown + [] == shown;
  }

  /** The roots at position i and above are the ones shown. */
  ghost predicate RootsShown(g: Graph, shown: seq<nat>, i: nat)
    requires g.Valid() && i <= |g.delegated|
  {
    && Listed(g, shown)
    && (forall k | 0 <= k < |shown| :: shown[k] >= i)
    && Roots(g, |g.delegated|) == shown + Roots(g, i)
  }

  lemma NextShown(g: Graph, shown: seq<nat>, i: nat)
    requires g.Valid() && i < |g.delegated| && RootsShown(g, shown, i + 1)
    ensures RootsShown(g, if HasParent(g, i) then shown else shown + [i], i)
    ensures !HasParent(g, i) ==> i !in Grow(g, shown, {}).1
  {
    if HasParent(g, i) {
      assert Roots(g, i + 1) == [] + Roots(g, i);
    } else {
      assert shown + ([i] + Roots(g, i)) == shown + [i] + Roots(g, i);
      UnshownRoot(g, shown, i);
    }
  }

  lemma ParentMarks(g: Graph, c: nat)
    requires g.Valid() && c < |g.delegated|
    ensures InSome(g.delegated, c) || InSome(g.followed, c) <==> HasParent(g, c)
  {
    if InSome(g.delegated, c) {
      var t :| 0 <= t < |g.delegated| && c in g.delegated[t];
      assert c in g.Edges(t);
    } else if InSome(g.followed, c) {
      var t :| 0 <= t < |g.followed| && c in g.followed[t];
      assert c in g.Edges(t);
    }
  }

  ghost predicate Parentless(tasks: seq<Task>, c: nat)
    requires c < |tasks|
  {
    forall t | 0 <= t < |tasks| :: !Parent(tasks, t, c)
  }

  /** With unique ids and keys, having a parent in the graph is having one in the list. */
  lemma ParentlessIsRoot(tasks: seq<Task>, c: nat)
    requires UniqueTasks(tasks) && c < |tasks| && GraphOf(tasks).Valid()
    ensures HasParent(GraphOf(tasks), c) <==> !Parentless(tasks, c)
  {
    forall t | 0 <= t < |tasks|
      ensures c in GraphOf(tasks).Edges(t) <==> Parent(tasks, t, c)
    {
      LinksAreParents(tasks, t, c);
    }
  }

  /** Links that never lead back to an older task. */
  ghost predicate NoCircle(tasks: seq<Task>, age: seq<nat>) {
    && |age| == |tasks|
    && forall t, c | 0 <= t < |tasks| && 0 <= c < |tasks| && Parent(tasks, t, c) :: age[t] < age[c]
  }

  lemma NoCircleIsAcyclic(tasks: seq<Task>, age: seq<nat>)
    requires UniqueTasks(tasks) && NoCircle(tasks, age) && GraphOf(tasks).Valid()
    ensures Acyclic(GraphOf(tasks), age)
  {
    forall t, c | 0 <= t < |age| && 0 <= c < |age| && c in GraphOf(tasks).Edges(t)
      ensures age[t] < age[c]
    {
      LinksAreParents(tasks, t, c);
    }
  }

  /**
   * The display promise: with unique ids and keys and no circle of links, every listed task is shown
   * exactly once, and the roots are exactly the tasks without a listed parent, newest first.
   */
  lemma EveryTaskShownOnce(tasks: seq<Task>, age: seq<nat>)
    requires UniqueTasks(tasks) && NoCircle(tasks, age)
    ensures GraphOf(tasks).Valid()
    ensures var shown := Flatten(Forest(GraphOf(tasks)));
            NoDuplicates(shown) && forall x: nat :: x in shown <==> x < |tasks|
    ensures var roots := Heads(Forest(GraphOf(tasks)));
            && (forall c: nat :: c in roots <==> c < |tasks| && Parentless(tasks, c))
            && (forall j, k | 0 <= j < k < |roots| :: roots[j] > roots[k])
  {
    var g := GraphOf(tasks);
    GraphIsValid(tasks);
    NoCircleIsAcyclic(tasks, age);
    AcyclicForestIsComplete(g, age);
    ForestShowsReachableOnce(g);
    RootsAre(g, |tasks|);
    forall c: nat | c < |tasks|
      ensures HasParent(g, c) <==> !Parentless(tasks, c)
    {
      ParentlessIsRoot(tasks, c);
    }
  }
}
