/**
 * The MCP server's ledger of one adapter invocation: a capped sink of intents, a table of receipts that
 * suppresses repeats, and a bearer token that dies when the invocation is drained.
 */
module IntentLedger {
  import opened Basics

  const DELEGATE_TASK := "delegate_task"
  const FINISH_TASK := "finish_task"
  const DEFAULT_CAP := 100

  /** A payload in its canonical JSON encoding, which writes control characters as escapes. */
  type Encoding = s: string | '\0' !in s

  datatype Call = Call(kind: string, payload: Encoding)

  /** What marks a call as a repeat of an earlier one. */
  function DedupeKey(token: string, c: Call): string {
    token + "\0" + c.kind + "\0" + c.payload
  }

  datatype Reply =
    | Unauthorized
    | Ack(receipt: nat, duplicate: bool)
    | FinishRejected
    | SinkFull

  /** What the invocation's lock guards. */
  datatype Ledger = Ledger(intents: seq<Call>, receipts: map<string, nat>, delegated: bool, cap: nat)

  /** Checks, records and inserts under one lock. */
  function Recorded(token: string, l: Ledger, c: Call, receipt: nat): (Ledger, Reply) {
    var key := DedupeKey(token, c);
    if key in l.receipts then (l, Ack(l.receipts[key], true))
    else if c.kind == FINISH_TASK && l.delegated then (l, FinishRejected)
    else if |l.intents| >= l.cap then (l, SinkFull)
    else
      (Ledger(l.intents + [c], l.receipts[key := receipt], l.delegated || c.kind == DELEGATE_TASK, l.cap),
       Ack(receipt, false))
  }

  // ------------------------------------------------------------- the objects

  class Sink {
    var intents: seq<Call>
    const capacity: nat

    /** A capacity that is not positive means the default. */
    constructor (n: int)
      ensures intents == [] && capacity == if n <= 0 then DEFAULT_CAP else n
    {
      intents := [];
      capacity := if n <= 0 then DEFAULT_CAP else n;
    }

    method Record(c: Call) returns (ok: bool)
      modifies this
      ensures ok == (|old(intents)| < capacity)
      ensures intents == if ok then old(intents) + [c] else old(intents)
    {
      if |intents| >= capacity {
        return false;
      }
      intents := intents + [c];
      return true;
    }

    method Read() returns (copy: seq<Call>)
      ensures copy == intents
    {
      copy := intents;
    }
  }

  class Invocation {
    const tenant: string
    const expires: int
    const sink: Sink
    var receipts: map<string, nat>
    var contacted: bool
    var delegated: bool

    constructor (tenant: string, expires: int)
      ensures this.tenant == tenant && this.expires == expires && fresh(sink)
      ensures State() == Ledger([], map[], false, DEFAULT_CAP) && !contacted
    {
      this.tenant, this.expires := tenant, expires;
      sink := new Sink(0);
      receipts, contacted, delegated := map[], false, false;
    }

    function State(): Ledger
      reads this, sink
    {
      Ledger(sink.intents, receipts, delegated, sink.capacity)
    }

    /** Check, record and insert, under the invocation's lock. */
    method RecordCall(token: string, c: Call, receipt: nat) returns (reply: Reply)
      modifies this, sink
      ensures (State(), reply) == Recorded(token, old(State()), c, receipt) && contacted == old(contacted)
    {
      var key := DedupeKey(token, c);
      if key in receipts {
        return Ack(receipts[key], true);
      }
      if c.kind == FINISH_TASK && delegated {
        return FinishRejected;
      }
      var ok := sink.Record(c);
      if !ok {
        return SinkFull;
      }
      if c.kind == DELEGATE_TASK {
        delegated := true;
      }
      receipts := receipts[key := receipt];
      return Ack(receipt, false);
    }
  }

  class Registry {
    var entries: map<string, Invocation>

    constructor ()
      ensures entries == map[]
    {
      entries := map[];
    }

    /** Binds a fresh token to a new invocation. */
    method Mint(token: string, tenant: string, expires: int) returns (h: Handle)
      requires token !in entries
      modifies this
      ensures fresh(h) && fresh(h.inv) && fresh(h.inv.sink) && h.reg == this && h.token == token && !h.drained
      ensures entries == old(entries)[token := h.inv]
      ensures h.inv.tenant == tenant && h.inv.expires == expires
      ensures h.inv.State() == Ledger([], map[], false, DEFAULT_CAP)
    {
      var inv := new Invocation(tenant, expires);
      entries := entries[token := inv];
      h := new Handle(inv, this, token);
    }

    /** Unknown, expired and foreign tokens resolve to nothing. */
    method Resolve(token: string, tenant: string, now: int) returns (inv: Invocation?)
      ensures inv != null <==> token in entries && now <= entries[token].expires && entries[token].tenant == tenant
      ensures inv != null ==> inv == entries[token]
    {
      if token !in entries {
        return null;
      }
      var found := entries[token];
      if now > found.expires {
        return null;
      }
      if found.tenant != tenant {
        return null;
      }
      return found;
    }

    /** Marks the invocation of a live token as contacted. */
    method Verify(token: string, now: int) returns (ok: bool)
      modifies if token in entries then {entries[token]} else {}
      ensures ok == (token in entries && now <= entries[token].expires)
      ensures token in entries ==> entries[token].contacted == (old(entries[token].contacted) || ok)
      ensures token in entries ==> entries[token].State() == old(entries[token].State())
    {
      if token !in entries {
        return false;
      }
      if now > entries[token].expires {
        return false;
      }
      entries[token].contacted := true;
      return true;
    }

    /** The tool handler. */
    method HandleCall(token: string, tenant: string, now: int, c: Call, receipt: nat) returns (reply: Reply)
      modifies if token in entries then {entries[token] as object, entries[token].sink} else {}
      ensures !(token in entries && now <= entries[token].expires && entries[token].tenant == tenant)
              ==> reply == Unauthorized && (token in entries ==> entries[token].State() == old(entries[token].State()))
      ensures token in entries && now <= entries[token].expires && entries[token].tenant == tenant ==>
                (entries[token].State(), reply) == Recorded(token, old(entries[token].State()), c, receipt)
      ensures token in entries ==> entries[token].contacted == old(entries[token].contacted)
    {
      var inv := Resolve(token, tenant, now);
      if inv == null {
        return Unauthorized;
      }
      reply := inv.RecordCall(token, c, receipt);
    }
  }

  class Handle {
    const inv: Invocation
    const reg: Registry
    const token: string
    var drained: bool

    constructor (inv: Invocation, reg: Registry, token: string)
      ensures this.inv == inv && this.reg == reg && this.token == token && !drained
    {
      this.inv, this.reg, this.token, drained := inv, reg, token, false;
    }

    method Contacted() returns (r: bool)
      ensures r == inv.contacted
    {
      r := inv.contacted;
    }

    /** The first drain ends the token's life and returns the sink; later ones return nothing. */
    method Drain() returns (intents: seq<Call>)
      modifies this, reg
      ensures drained && intents == if old(drained) then [] else inv.sink.intents
      ensures reg.entries == if old(drained) then old(reg.entries) else old(reg.entries) - {token}
    {
      if drained {
        return [];
      }
      drained := true;
      reg.entries := reg.entries - {token};
      intents := inv.sink.Read();
    }
  }

  // ------------------------------------------------------ runs of one invocation

  /**
   * One invocation and its callers. A request verifies its token, then resolves it and records its call;
   * `requests` and `inFlight` are the requests after the first and the second of these steps. A drain
   * retires the token and reads the sink in two steps. `acked` are the distinct calls acknowledged so far,
   * in order.
   */
  datatype State = State(
    token: string, ledger: Ledger, registered: bool, contacted: bool, drained: Option<seq<Call>>, requests: nat,
    inFlight: multiset<Call>, acked: seq<Call>)

  datatype Action =
    | Verifies(valid: bool)               // valid: the token has not expired
    | Resolves(call: Call, valid: bool)   // valid: nor has it now, and the tenant matches
    | Records(call: Call, receipt: nat)
    | Retires
    | Reads

  predicate Enabled(s: State, a: Action) {
    match a
    case Verifies(_) => true
    case Resolves(_, _) => s.requests > 0
    case Records(c, _) => c in s.inFlight
    case Retires => s.registered
    case Reads => !s.registered && s.drained.None?
  }

  function Next(s: State, a: Action): State
    requires Enabled(s, a)
  {
    match a
    case Verifies(valid) =>
      if s.registered && valid then s.(contacted := true, requests := s.requests + 1) else s
    case Resolves(c, valid) =>
      s.(
      requests := s.requests - 1,
      inFlight := if s.registered && valid then s.inFlight + multiset{c} else s.inFlight)
    case Records(c, receipt) =>
      var (l, reply) := Recorded(s.token, s.ledger, c, receipt);
      s.(
      ledger := l,
      inFlight := s.inFlight - multiset{c},
      acked := if reply.Ack? && !reply.duplicate then s.acked + [c] else s.acked)
    case Retires => s.(registered := false)
    case Reads => s.(drained := Some(s.ledger.intents))
  }

  function Initial(token: string, n: nat): State {
    State(token, Ledger([], map[], false, n), true, false, None, 0, multiset{}, [])
  }

  ghost predicate Distinct(cs: seq<Call>) {
    forall j, k | 0 <= j < k < |cs| :: cs[j] != cs[k]
  }

  predicate DelegatesIn(cs: seq<Call>) {
    exists k | 0 <= k < |cs| :: cs[k].kind == DELEGATE_TASK
  }

  /** Receipts and sink entries correspond one to one, within the cap, and no finish follows a delegation. */
  ghost predicate LedgerOk(token: string, l: Ledger) {
    && Distinct(l.intents)
    && (forall c: Call :: DedupeKey(token, c) in l.receipts <==> c in l.intents)
    && |l.receipts| == |l.intents|
    && |l.intents| <= l.cap
    && (l.delegated <==> DelegatesIn(l.intents))
    && (forall j, k | 0 <= j < k < |l.intents| ::
          l.intents[j].kind == DELEGATE_TASK ==> l.intents[k].kind != FINISH_TASK)
  }

  ghost predicate Inv(s: State) {
    && LedgerOk(s.token, s.ledger)
    && s.acked == s.ledger.intents
    && (s.drained.Some? ==> !s.registered)
    && (!s.contacted ==> s.requests == 0 && s.inFlight == multiset{} && s.acked == [])
    && (s.drained.Some? ==> s.drained.value <= s.acked)
  }

  lemma LastNul(kind: string, payload: Encoding, i: nat)
    requires i < |kind + "\0" + payload|
    ensures (kind + "\0" + payload)[|kind|] == '\0'
    ensures i > |kind| ==> (kind + "\0" + payload)[i] != '\0'
  {
  }

  /** Within an invocation only identical calls share a key. */
  lemma KeysTellCallsApart(token: string, c: Call, d: Call)
    ensures DedupeKey(token, c) == DedupeKey(token, d) <==> c == d
  {
    var a, b := c.kind + "\0" + c.payload, d.kind + "\0" + d.payload;
    assert DedupeKey(token, c) == token + "\0" + a && DedupeKey(token, d) == token + "\0" + b;
    if DedupeKey(token, c) == DedupeKey(token, d) {
      assert a == (token + "\0" + a)[|token| + 1..] == (token + "\0" + b)[|token| + 1..] == b;
      LastNul(c.kind, c.payload, |d.kind|);
      LastNul(d.kind, d.payload, |c.kind|);
      assert c.kind == a[..|c.kind|] == b[..|d.kind|] == d.kind;
      assert c.payload == a[|c.kind| + 1..] == b[|d.kind| + 1..] == d.payload;
    }
  }

  lemma RecordedKeeps(token: string, l: Ledger, c: Call, receipt: nat)
    requires LedgerOk(token, l)
    ensures var (l', reply) := Recorded(token, l, c, receipt);
            && LedgerOk(token, l')
            && (reply.Ack? && !reply.duplicate ==> l'.intents == l.intents + [c] && c !in l.intents)
            && (!(reply.Ack? && !reply.duplicate) ==> l' == l)
            && (reply.Ack? <==> DedupeKey(token, c) in l'.receipts)
  {
    var (l', reply) := Recorded(token, l, c, receipt);
    if reply.Ack? && !reply.duplicate {
      forall k | 0 <= k < |l.intents|
        ensures l.intents[k] != c
        ensures l'.intents[k] == l.intents[k]
      {
        assert l.intents[k] in l.intents;
      }
      assert l'.intents[|l.intents|] == c;
      forall d: Call
        ensures DedupeKey(token, d) in l'.receipts <==> d in l'.intents
      {
        KeysTellCallsApart(token, c, d);
      }
    }
  }

  /**
   * Nothing is refused without need: a call is a duplicate exactly if it is recorded, and then gets its first
   * receipt; a new one is refused exactly if it would finish behind a delegation or the sink is full.
   */
  lemma RepliesIff(token: string, l: Ledger, c: Call, receipt: nat)
    requires LedgerOk(token, l)
    ensures var reply := Recorded(token, l, c, receipt).1;
            && (reply.Ack? && reply.duplicate <==> c in l.intents)
            && (reply.FinishRejected? <==> c !in l.intents && c.kind == "finish_task" && DelegatesIn(l.intents))
            && (reply.SinkFull? <==> c !in l.intents && !reply.FinishRejected? && |l.intents| == l.cap)
            && (reply.Ack? && !reply.duplicate ==> reply.receipt == receipt)
            && reply != Unauthorized
  {
    assert DedupeKey(token, c) in l.receipts <==> c in l.intents;
  }

  /** Once acknowledged, a call is acknowledged as a repeat for good, with the same receipt. */
  lemma {:induction false} ReceiptsStay(s: State, actions: seq<Action>, c: Call)
    requires Inv(s) && Legal(s, actions) && c in s.ledger.intents
    ensures var t := After(s, actions);
            forall receipt :: Recorded(s.token, t.ledger, c, receipt).1
                           == Recorded(s.token, s.ledger, c, receipt).1
                           == Ack(s.ledger.receipts[DedupeKey(s.token, c)], true)
    ensures After(s, actions).token == s.token
    decreases |actions|
  {
    assert DedupeKey(s.token, c) in s.ledger.receipts;
    if actions != [] {
      StepKeeps(s, actions[0]);
      if actions[0].Records? {
        RecordedKeeps(s.token, s.ledger, actions[0].call, actions[0].receipt);
      }
      ReceiptsStay(Next(s, actions[0]), actions[1..], c);
    }
  }

  lemma StepKeeps(s: State, a: Action)
    requires Inv(s) && Enabled(s, a)
    ensures Inv(Next(s, a))
    ensures s.drained.Some? ==> Next(s, a).drained == s.drained
    ensures s.acked <= Next(s, a).acked
  {
    if a.Records? {
      RecordedKeeps(s.token, s.ledger, a.call, a.receipt);
    }
  }

  ghost predicate Legal(s: State, actions: seq<Action>)
    decreases |actions|
  {
    actions == [] || (Enabled(s, actions[0]) && Legal(Next(s, actions[0]), actions[1..]))
  }

  ghost function After(s: State, actions: seq<Action>): State
    requires Legal(s, actions)
    decreases |actions|
  {
    if actions == [] then s else After(Next(s, actions[0]), actions[1..])
  }

  lemma {:induction false} RunKeeps(s: State, actions: seq<Action>)
    requires Inv(s) && Legal(s, actions)
    ensures Inv(After(s, actions))
    ensures s.drained.Some? ==> After(s, actions).drained == s.drained
    ensures s.acked <= After(s, actions).acked
    decreases |actions|
  {
    if actions != [] {
      StepKeeps(s, actions[0]);
      RunKeeps(Next(s, actions[0]), actions[1..]);
    }
  }

  /**
   * Over any sequence of calls and drains: receipts and sink entries are in bijection and never exceed
   * the cap, a refused call leaves no receipt, nothing finishes after a delegation, and the sink holds
   * exactly the distinct acknowledged calls, in order.
   */
  lemma LedgerIsExact(token: string, n: nat, actions: seq<Action>)
    requires Legal(Initial(token, n), actions)
    ensures var s := After(Initial(token, n), actions);
            && LedgerOk(s.token, s.ledger)
            && s.acked == s.ledger.intents
            && (s.drained.Some? ==> s.drained.value <= s.acked)
  {
    RunKeeps(Initial(token, n), actions);
  }

  /** An agent that never reached the server has drained nothing, and none of its calls was acknowledged. */
  lemma UncontactedMeansSilent(token: string, n: nat, actions: seq<Action>)
    requires Legal(Initial(token, n), actions) && !After(Initial(token, n), actions).contacted
    ensures var s := After(Initial(token, n), actions); s.acked == [] && (s.drained.Some? ==> s.drained.value == [])
  {
    RunKeeps(Initial(token, n), actions);
  }

  /** And it reached the server exactly when some verification met the token unexpired and not yet retired. */
  lemma {:induction false} ContactedIff(s: State, actions: seq<Action>)
    requires Legal(s, actions)
    ensures After(s, actions).contacted <==> s.contacted || Reaches(s, actions)
    decreases |actions|
  {
    if actions != [] {
      ContactedIff(Next(s, actions[0]), actions[1..]);
    }
  }

  ghost predicate Reaches(s: State, actions: seq<Action>)
    requires Legal(s, actions)
    decreases |actions|
  {
    actions != [] && ((s.registered && actions[0] == Verifies(true)) || Reaches(Next(s, actions[0]), actions[1..]))
  }

  /** The first drain returns exactly what has been acknowledged by then. */
  lemma FirstDrainIsExact(token: string, n: nat, actions: seq<Action>)
    requires Legal(Initial(token, n), actions) && Enabled(After(Initial(token, n), actions), Reads)
    ensures var s := After(Initial(token, n), actions); Next(s, Reads).drained == Some(s.acked)
  {
    RunKeeps(Initial(token, n), actions);
  }

  /** A call still in flight whose recording would add it to the sink. */
  ghost predicate Pending(s: State, c: Call) {
    && c in s.inFlight
    && DedupeKey(s.token, c) !in s.ledger.receipts
    && !(c.kind == FINISH_TASK && s.ledger.delegated)
    && |s.ledger.intents| < s.ledger.cap
  }

  /** After the drain only a pending call can still be recorded. */
  lemma {:induction false} QuietAfterDrain(s: State, actions: seq<Action>)
    requires Inv(s) && s.drained.Some? && (forall c :: !Pending(s, c)) && Legal(s, actions)
    ensures After(s, actions).acked == s.acked
    decreases |actions|
  {
    if actions != [] {
      var t := Next(s, actions[0]);
      StepKeeps(s, actions[0]);
      assert actions[0].Records? ==> !Pending(s, actions[0].call);
      assert t.ledger == s.ledger && t.acked == s.acked;
      forall c
        ensures !Pending(t, c)
      {
        assert !Pending(s, c);
      }
      QuietAfterDrain(t, actions[1..]);
    }
  }

  /**
   * Nothing acknowledged is ever missed by the drain exactly when no pending call was between resolving
   * its token and recording at that moment: such a call is acknowledged but never drained.
   */
  lemma DrainMissesNothingIff(s: State)
    requires Inv(s) && s.drained == Some(s.acked)
    ensures (forall actions | Legal(s, actions) :: After(s, actions).acked == s.acked)
            <==> (forall c :: !Pending(s, c))
  {
    if forall c :: !Pending(s, c) {
      forall actions | Legal(s, actions)
        ensures After(s, actions).acked == s.acked
      {
        QuietAfterDrain(s, actions);
      }
    } else {
      var c :| Pending(s, c);
      var late := [Records(c, 0)];
      assert late[1..] == [];
      assert Legal(Next(s, late[0]), []);
      assert After(s, late) == Next(s, late[0]);
      assert |After(s, late).acked| == |s.acked| + 1;
    }
  }

  /** Every invocation with room in its sink has a run in which any given call ends acknowledged, and missed. */
  lemma DrainMissesCall(token: string, n: nat, c: Call) returns (actions: seq<Action>)
    requires n > 0
    ensures Legal(Initial(token, n), actions)
    ensures var s := After(Initial(token, n), actions);
            s.drained == Some([]) && s.acked == [c] && s.inFlight == multiset{}
  {
    var s0 := Initial(token, n);
    var s2 := s0.(contacted := true, inFlight := multiset{c});
    var s4 := s2.(registered := false, drained := Some([]));
    var s5 := Next(s4, Records(c, 0));
    actions := [Verifies(true)] + ([Resolves(c, true)] + ([Retires] + ([Reads] + ([Records(c, 0)] + []))));
    Prepend(s4, Records(c, 0), []);
    Prepend(s2.(registered := false), Reads, [Records(c, 0)] + []);
    Prepend(s2, Retires, [Reads] + ([Records(c, 0)] + []));
    assert Next(Next(s0, Verifies(true)), Resolves(c, true)) == s2;
    Prepend(Next(s0, Verifies(true)), Resolves(c, true), [Retires] + ([Reads] + ([Records(c, 0)] + [])));
    Prepend(s0, Verifies(true), [Resolves(c, true)] + ([Retires] + ([Reads] + ([Records(c, 0)] + []))));
    assert After(s0, actions) == s5;
  }

  lemma Prepend(s: State, a: Action, rest: seq<Action>)
    requires Enabled(s, a) && Legal(Next(s, a), rest)
    ensures Legal(s, [a] + rest) && After(s, [a] + rest) == After(Next(s, a), rest)
  {
    assert ([a] + rest)[1..] == rest;
  }
}
