/** The two-stage risk classification and the single-use approval tokens. */
module RiskPolicy {
  import opened Basics
  import opened Tasks

  datatype Class = HardDeny | Escalate | Permit

  /** Capability first, risk second; an undeclared kind is denied. */
  function Classify(env: Env, kind: string): Class {
    if kind !in env.policies then HardDeny
    else if env.role !in env.policies[kind].allowedRoles then HardDeny
    else if env.policies[kind].risk == "risky" then Escalate
    else Permit
  }

  // ------------------------------------------------------------------ tokens

  /** Outstanding tokens. Tokens are drawn fresh; a counter stands for the random source. */
  datatype Tokens = Tokens(issued: set<nat>, next: nat)

  datatype TokenOp = Mints | Validates(token: nat)

  function Applied(s: Tokens, op: TokenOp): Tokens {
    match op
    case Mints => Tokens(s.issued + {s.next}, s.next + 1)
    case Validates(t) => Tokens(s.issued - {t}, s.next)
  }

  /** The store after a sequence of operations on an empty one. */
  function AllApplied(ops: seq<TokenOp>): Tokens {
    if ops == [] then Tokens({}, 0) else Applied(AllApplied(Init(ops)), Last(ops))
  }

  /** Operation k minted the token. */
  predicate MintedAt(ops: seq<TokenOp>, k: nat, token: nat)
    requires k < |ops|
  {
    ops[k] == Mints && AllApplied(ops[..k]).next == token
  }

  ghost predicate Outstanding(ops: seq<TokenOp>, token: nat) {
    exists k | 0 <= k < |ops| :: MintedAt(ops, k, token) && Validates(token) !in ops[k..]
  }

  lemma OutstandingNext(ops: seq<TokenOp>, op: TokenOp, token: nat)
    ensures Outstanding(ops + [op], token)
       <==> op != Validates(token) && (Outstanding(ops, token) || (op == Mints && AllApplied(ops).next == token))
  {
    var all := ops + [op];
    assert all[..|ops|] == ops && all[|ops|..] == [op];
    if Outstanding(all, token) {
      var k :| 0 <= k < |all| && MintedAt(all, k, token) && Validates(token) !in all[k..];
      SinceThen(ops, op, k, token);
      assert k < |ops| || MintedAt(all, |ops|, token);
    }
    if op != Validates(token) && Outstanding(ops, token) {
      var k :| 0 <= k < |ops| && MintedAt(ops, k, token) && Validates(token) !in ops[k..];
      SinceThen(ops, op, k, token);
    } else if op == Mints && AllApplied(ops).next == token {
      assert MintedAt(all, |ops|, token);
    }
  }

  lemma SinceThen(ops: seq<TokenOp>, op: TokenOp, k: nat, token: nat)
    requires k <= |ops|
    ensures Validates(token) !in (ops + [op])[k..] <==> op != Validates(token) && Validates(token) !in ops[k..]
    ensures k < |ops| ==> (MintedAt(ops + [op], k, token) <==> MintedAt(ops, k, token))
  {
    assert (ops + [op])[k..] == ops[k..] + [op];
    assert (ops + [op])[..k] == ops[..k];
  }

  /**
   * A token works once: whatever was minted and validated before, it is accepted now if and only if it
   * was minted by this store and has not been presented since.
   */
  lemma {:induction false} TokensWorkOnce(ops: seq<TokenOp>, token: nat)
    ensures token in AllApplied(ops).issued <==> Outstanding(ops, token)
    decreases |ops|
  {
    if ops != [] {
      SplitLast(ops);
      TokensWorkOnce(Init(ops), token);
      OutstandingNext(Init(ops), Last(ops), token);
    }
  }

  class Engine {
    var issued: set<nat>
    var next: nat

    ghost predicate Valid()
      reads this
    {
      forall t | t in issued :: t < next
    }

    function State(): Tokens
      reads this
    {
      Tokens(issued, next)
    }

    constructor ()
      ensures Valid() && issued == {} && next == 0
    {
      issued, next := {}, 0;
    }

    method Mint() returns (token: nat)
      requires Valid()
      modifies this
      ensures Valid() && token !in old(issued)
      ensures issued == old(issued) + {token} && token == old(next) && next == old(next) + 1
      ensures State() == Applied(old(State()), Mints)
    {
      token := next;
      issued, next := issued + {token}, next + 1;
    }

    /** A token is accepted when it is outstanding, and is consumed by being accepted. */
    method Validate(token: nat) returns (ok: bool)
      requires Valid()
      modifies this
      ensures Valid() && next == old(next)
      ensures ok == (token in old(issued)) && issued == old(issued) - {token}
      ensures State() == Applied(old(State()), Validates(token))
    {
      ok := token in issued;
      if ok {
        issued := issued - {token};
      }
    }

    /** Only Permit mints: a denied or escalated intent leaves the engine untouched. */
    method ClassifyIntent(env: Env, kind: string) returns (c: Class, token: Option<nat>)
      requires Valid()
      modifies this
      ensures Valid() && c == Classify(env, kind)
      ensures c == HardDeny <==> kind !in env.policies || env.role !in env.policies[kind].allowedRoles
      ensures c == Escalate <==>
                && kind in env.policies && env.role in env.policies[kind].allowedRoles
                && env.policies[kind].risk == "risky"
      ensures c != Permit ==> token == None && issued == old(issued) && next == old(next)
      ensures c == Permit ==> token == Some(old(next)) && next == old(next) + 1
      ensures c == Permit ==> token.value !in old(issued) && issued == old(issued) + {token.value}
    {
      token := None;
      if kind !in env.policies {
        return HardDeny, None;
      }
      var p := env.policies[kind];
      var allowed := Contains(p.allowedRoles, env.role);
      if !allowed {
        return HardDeny, None;
      }
      if p.risk == "risky" {
        return Escalate, None;
      }
      var t := Mint();
      return Permit, Some(t);
    }
  }

  method Contains(slice: seq<string>, s: string) returns (found: bool)
    ensures found == (s in slice)
  {
    for i := 0 to |slice|
      invariant s !in slice[..i]
    {
      if slice[i] == s {
        return true;
      }
    }
    return false;
  }
}
