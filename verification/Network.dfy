/**
 * Many supervisors delegating to each other, in circles of roles if they like. Every delegation opens
 * a fresh task on the peer, so tasks never wait for each other in a circle and the company as a whole
 * never deadlocks.
 */
module Network {
  import opened Basics
  import opened BoundedContext
  import opened Tasks
  import opened Machine
  import opened Soundness
  import opened TaskTheorems

  /**
   * A task somewhere in the company: when it was created, the peer tasks it has opened, and where it
   * rests, or None while an execution of it is live.
   */
  datatype Node = Node(birth: nat, peers: set<string>, at: Option<Rest>)

  type Net = map<string, Node>

  datatype Action =
    | Submit(task: string)
    | Delegate(task: string, peer: string)
    | Settle(task: string, at: Rest)
    | Message(task: string)
    | Cancel(task: string)

  /** A rest point some run of the task machine reaches, having opened none but the given peer tasks. */
  ghost predicate RestPoint(s: Rest, peers: set<string>) {
    && (exists env, rec, schedule :: Faithful(env) && Fresh(rec) && s == Reached(env, rec, schedule))
    && (forall d | d in s.rec.delegations :: d.taskId in peers)
  }

  predicate Live(net: Net, task: string) {
    task in net && net[task].at == None
  }

  predicate Resting(net: Net, task: string) {
    task in net && net[task].at.Some? && !net[task].at.value.rec.state.Terminal()
  }

  predicate Finished(net: Net, task: string) {
    task in net && net[task].at.Some? && net[task].at.value.rec.state.Terminal()
  }

  predicate Awaits(net: Net, task: string, peer: string) {
    Resting(net, task) && net[task].at.value.rec.AwaitsPeer() && net[task].at.value.rec.awaitingTaskId == peer
  }

  predicate AwaitsHuman(net: Net, task: string) {
    Resting(net, task) && !net[task].at.value.rec.AwaitsPeer() && net[task].at.value.rec.AwaitsVerdict()
  }

  ghost predicate Enabled(net: Net, a: Action) {
    match a
    case Submit(t) => t !in net
    case Delegate(t, p) => Live(net, t) && p !in net
    case Settle(t, s) => Live(net, t) && RestPoint(s, net[t].peers)
    case Message(t) => Resting(net, t)
    case Cancel(t) => Resting(net, t)
  }

  function Next(net: Net, a: Action): Net {
    match a
    case Submit(t) => net[t := Node(|net|, {}, None)]
    case Delegate(t, p) =>
      if t in net then net[t := net[t].(peers := net[t].peers + {p})][p := Node(|net|, {}, None)] else net
    case Settle(t, s) => if t in net then net[t := net[t].(at := Some(s))] else net
    case Message(t) => if t in net then net[t := net[t].(at := None)] else net
    case Cancel(t) =>
      if t in net && net[t].at.Some?
      then net[t := net[t].(at := Some(net[t].at.value.(rec := net[t].at.value.rec.(state := Canceled))))]
      else net
  }

  /** Tasks are younger than those that opened them. */
  ghost predicate Aged(net: Net) {
    && (forall t | t in net :: net[t].birth < |net|)
    && (forall t, p | t in net && p in net[t].peers :: p in net && net[t].birth < net[p].birth)
  }

  /** A resting task awaits a peer task it opened itself, or a human. */
  ghost predicate OwnWaits(net: Net) {
    forall t | Resting(net, t) ::
      var rec := net[t].at.value.rec;
      if rec.AwaitsPeer() then rec.awaitingTaskId in net[t].peers else rec.AwaitsVerdict()
  }

  /** Resting tasks rest where a run of the task machine has left them. */
  ghost predicate RestAtPoints(net: Net) {
    forall t | Resting(net, t) :: RestPoint(net[t].at.value, net[t].peers)
  }

  ghost predicate Inv(net: Net) {
    Aged(net) && OwnWaits(net) && RestAtPoints(net)
  }

  /** A task awaits nothing it has not opened itself. */
  lemma RestPointAwaitsItsOwn(s: Rest, peers: set<string>)
    requires RestPoint(s, peers) && !s.rec.state.Terminal()
    ensures if s.rec.AwaitsPeer() then s.rec.awaitingTaskId in peers else s.rec.AwaitsVerdict()
  {
    var env, rec, schedule :| Faithful(env) && Fresh(rec) && s == Reached(env, rec, schedule);
    RestStates(env, rec, schedule);
    DelegationsAreLedgered(env, rec, schedule);
    if s.rec.AwaitsPeer() {
      assert Last(s.rec.delegations) in s.rec.delegations;
    }
  }

  lemma GrowsByOne(net: Net, t: string, n: Node)
    requires t !in net
    ensures |net[t := n]| == |net| + 1
  {
  }

  lemma SubmitKeeps(net: Net, t: string)
    requires Inv(net) && t !in net
    ensures Inv(Next(net, Submit(t)))
  {
    GrowsByOne(net, t, Node(|net|, {}, None));
  }

  lemma DelegateAges(net: Net, t: string, p: string)
    requires Aged(net) && Live(net, t) && p !in net
    ensures Aged(Next(net, Delegate(t, p)))
  {
    var net1 := net[t := net[t].(peers := net[t].peers + {p})];
    SameSize(net, net1);
    GrowsByOne(net1, p, Node(|net|, {}, None));
  }

  lemma DelegateKeeps(net: Net, t: string, p: string)
    requires Inv(net) && Live(net, t) && p !in net
    ensures Inv(Next(net, Delegate(t, p)))
  {
    DelegateAges(net, t, p);
    var next := Next(net, Delegate(t, p));
    forall x | Resting(next, x)
      ensures Resting(net, x) && next[x] == net[x]
    {
    }
  }

  lemma PlaceAges(net: Net, t: string, at: Option<Rest>)
    requires Aged(net) && t in net
    ensures Aged(net[t := net[t].(at := at)])
  {
    SameSize(net, net[t := net[t].(at := at)]);
  }

  lemma OthersRest(net: Net, t: string, at: Option<Rest>, x: string)
    requires t in net && x != t && Resting(net[t := net[t].(at := at)], x)
    ensures Resting(net, x) && net[t := net[t].(at := at)][x] == net[x]
  {
  }

  /** A change of where one task rests, to a rest point where it awaits at most a task it opened. */
  lemma PlaceKeeps(net: Net, t: string, at: Option<Rest>)
    requires Inv(net) && t in net
    requires at.Some? && !at.value.rec.state.Terminal() ==>
               if at.value.rec.AwaitsPeer() then at.value.rec.awaitingTaskId in net[t].peers
               else at.value.rec.AwaitsVerdict()
    requires at.Some? && !at.value.rec.state.Terminal() ==> RestPoint(at.value, net[t].peers)
    ensures Inv(net[t := net[t].(at := at)])
  {
    var next := net[t := net[t].(at := at)];
    PlaceAges(net, t, at);
    forall x | Resting(next, x)
      ensures var rec := next[x].at.value.rec;
              if rec.AwaitsPeer() then rec.awaitingTaskId in next[x].peers else rec.AwaitsVerdict()
      ensures RestPoint(next[x].at.value, next[x].peers)
    {
      if x != t {
        OthersRest(net, t, at, x);
      }
    }
  }

  lemma StepKeeps(net: Net, a: Action)
    requires Inv(net) && Enabled(net, a)
    ensures Inv(Next(net, a))
  {
    match a
    case Submit(t) => SubmitKeeps(net, t);
    case Delegate(t, p) => DelegateKeeps(net, t, p);
    case Settle(t, s) =>
      if !s.rec.state.Terminal() {
        RestPointAwaitsItsOwn(s, net[t].peers);
      }
      PlaceKeeps(net, t, Some(s));
    case Message(t) => PlaceKeeps(net, t, None);
    case Cancel(t) => PlaceKeeps(net, t, Next(net, a)[t].at);
  }

  lemma SameSize(a: Net, b: Net)
    requires a.Keys == b.Keys
    ensures |a| == |b|
  {
    assert |a| == |a.Keys| && |b| == |b.Keys|;
  }

  ghost predicate Legal(net: Net, actions: seq<Action>)
    decreases |actions|
  {
    actions == [] || (Enabled(net, actions[0]) && Legal(Next(net, actions[0]), actions[1..]))
  }

  function After(net: Net, actions: seq<Action>): Net
    decreases |actions|
  {
    if actions == [] then net else After(Next(net, actions[0]), actions[1..])
  }

  lemma {:induction false} RunKeeps(net: Net, actions: seq<Action>)
    requires Inv(net) && Legal(net, actions)
    ensures Inv(After(net, actions))
    decreases |actions|
  {
    if actions != [] {
      StepKeeps(net, actions[0]);
      RunKeeps(Next(net, actions[0]), actions[1..]);
    }
  }

  // -------------------------------------------------------------- wait chains

  /** path[0] awaits path[1], and so on. */
  ghost predicate WaitChain(net: Net, path: seq<string>) {
    forall k | 0 <= k < |path| - 1 :: Awaits(net, path[k], path[k + 1])
  }

  lemma {:induction false} ChainsGetYounger(net: Net, path: seq<string>, j: nat, k: nat)
    requires Inv(net) && WaitChain(net, path) && j < k < |path|
    ensures path[j] in net && path[k] in net && net[path[j]].birth < net[path[k]].birth
    decreases k - j
  {
    assert Awaits(net, path[j], path[j + 1]);
    if j + 1 < k {
      ChainsGetYounger(net, path, j + 1, k);
    }
  }

  /** No circular wait in any state of the company, whatever the roles delegate to whom. */
  lemma NoCircularWait(actions: seq<Action>, path: seq<string>)
    requires Legal(map[], actions) && WaitChain(After(map[], actions), path) && |path| > 1
    ensures path[0] != path[|path| - 1]
  {
    RunKeeps(map[], actions);
    ChainsGetYounger(After(map[], actions), path, 0, |path| - 1);
  }

  /** Following who awaits whom always ends: at a running, human-parked or finished task. */
  lemma {:induction false} EveryWaitEnds(net: Net, task: string) returns (path: seq<string>)
    requires Inv(net) && task in net
    ensures path != [] && path[0] == task && WaitChain(net, path)
    ensures var end := path[|path| - 1]; Live(net, end) || AwaitsHuman(net, end) || Finished(net, end)
    decreases |net| - net[task].birth
  {
    if Resting(net, task) && net[task].at.value.rec.AwaitsPeer() {
      var peer := net[task].at.value.rec.awaitingTaskId;
      var rest := EveryWaitEnds(net, peer);
      path := [task] + rest;
    } else {
      path := [task];
    }
  }

  /** Waking a task whose peer has finished is no stutter: it hears the result, or it ends. */
  lemma FinishedPeerReleases(env: Env, rec: TaskRecord, schedule: seq<Event>, input: string, res: DelegationResult)
    requires Faithful(env) && Fresh(rec) && res.state.Terminal()
    requires var s := Reached(env, rec, schedule); s.rec.state == InputRequired && s.rec.AwaitsPeer()
    ensures var s := Reached(env, rec, schedule);
            var t := Step(env, s, Arrives(input, Read(res)));
            t.rec.state == Failed || |t.rec.turns| > |s.rec.turns|
  {
    var s := Reached(env, rec, schedule);
    var (o, ok) := OutcomeForPeer(s.rec.awaitingRole, res);
    var text := if ok then o.output else WithoutOutputText(env, res);
    var r := ClearPeer(s.rec.AddTurn(BoundedContext.Message(Peer, text))).(state := Working);
    FinishTurnGrows(env, r, s.log, s.rec.remaining);
  }

  lemma MorePeers(s: Rest, peers: set<string>, more: set<string>)
    requires RestPoint(s, peers) && peers <= more
    ensures RestPoint(s, more)
  {
  }

  function OpenedBy(s: Rest): set<string> {
    set d | d in s.rec.delegations :: d.taskId
  }

  /** A provider that fails at once: every running task can end like this. */
  lemma AlwaysSettles(peers: set<string>) returns (s: Rest)
    ensures RestPoint(s, peers)
  {
    var env := Env("", map[], 0, 0, 0, false, false, false, text => text,
                   (id, log, input) => RunFailed, (id, log, body) => false, (id, log, role, body) => DelegateFailed);
    var rec := TaskRecord("t", Working, "", Tasks.NO_INTENT, [], [], "", "", false, false, [], "", "", "", 0);
    var first := rec.AddTurn(BoundedContext.Message(User, rec.input));
    s := Reached(env, rec, []);
    assert Faithful(env) && Fresh(rec);
    assert env.provider(first.taskId, [], RoundInput(env, first)) == RunFailed;
    assert s == RunRounds(env, first, []);
  }

  /**
   * A task that awaits a finished peer can be woken, and whatever the peer ended in, the message takes it
   * to a rest point past this wait: it has failed or heard the result. It can settle there from any state of
   * the company in which it runs and has opened the tasks it names.
   */
  lemma FinishedPeerEndsWait(net: Net, task: string, input: string, res: DelegationResult) returns (next: Rest)
    requires Inv(net) && Resting(net, task) && net[task].at.value.rec.AwaitsPeer() && res.state.Terminal()
    ensures next.rec.state == Failed || |next.rec.turns| > |net[task].at.value.rec.turns|
    ensures forall later: Net | Live(later, task) && later[task].peers >= net[task].peers + OpenedBy(next) ::
              Enabled(later, Settle(task, next))
  {
    var s := net[task].at.value;
    var env, rec, schedule :| Faithful(env) && Fresh(rec) && s == Reached(env, rec, schedule);
    var e := Arrives(input, Read(res));
    RestStates(env, rec, schedule);
    FinishedPeerReleases(env, rec, schedule, input, res);
    next := Step(env, s, e);
    assert Init(schedule + [e]) == schedule && Last(schedule + [e]) == e;
    assert next == Reached(env, rec, schedule + [e]);
    assert RestPoint(next, net[task].peers + OpenedBy(next));
    forall later: Net | Live(later, task) && later[task].peers >= net[task].peers + OpenedBy(next)
      ensures Enabled(later, Settle(task, next))
    {
      MorePeers(next, net[task].peers + OpenedBy(next), later[task].peers);
    }
  }

  /** An unfinished task has a step that changes the company. */
  lemma StepOf(net: Net, task: string) returns (a: Action)
    requires Live(net, task) || Resting(net, task)
    ensures a.task == task && Enabled(net, a) && Next(net, a) != net
    ensures if Live(net, task) then a.Settle? else a.Message?
  {
    if Live(net, task) {
      var s := AlwaysSettles(net[task].peers);
      a := Settle(task, s);
      assert Next(net, a)[task].at == Some(s);
    } else {
      a := Action.Message(task);
      assert Next(net, a)[task].at == None;
    }
  }

  /**
   * No deadlock: while some task is unfinished, one is running and can settle, or waits for a human, or
   * awaits a peer that has finished; and a step of it is enabled that changes the company.
   */
  lemma SomeoneCanMove(actions: seq<Action>, task: string) returns (mover: string, a: Action)
    requires Legal(map[], actions)
    requires var net := After(map[], actions); task in net && !Finished(net, task)
    ensures var net := After(map[], actions);
            || (Live(net, mover) && a.Settle?)
            || (AwaitsHuman(net, mover) && a.Message?)
            || (Resting(net, mover) && net[mover].at.value.rec.AwaitsPeer() && a.Message?
                && Finished(net, net[mover].at.value.rec.awaitingTaskId))
    ensures var net := After(map[], actions); a.task == mover && Enabled(net, a) && Next(net, a) != net
  {
    var net := After(map[], actions);
    RunKeeps(map[], actions);
    var path := EveryWaitEnds(net, task);
    var last := |path| - 1;
    if Finished(net, path[last]) {
      assert Awaits(net, path[last - 1], path[last]);
      mover := path[last - 1];
    } else {
      mover := path[last];
    }
    a := StepOf(net, mover);
  }
}
