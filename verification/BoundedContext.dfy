/** Context assembly: a transcript cut to a character budget, oldest messages dropped first. */
module BoundedContext {

  datatype Role = User | Assistant | Peer | System

  /** One transcript entry; the time stamp is erased. */
  datatype Message = Message(role: Role, content: string)

  datatype Assembled = Assembled(messages: seq<Message>, truncated: bool)

  const TRUNCATION_MARKER := "[context truncated: oldest messages dropped to fit budget]"

  function Size(messages: seq<Message>): nat {
    if messages == [] then 0 else |messages[0].content| + Size(messages[1..])
  }

  /** What is left of the budget once a marker of the given length has been paid for. */
  function Room(budget: int, markerLen: nat): nat {
    if budget < markerLen then 0 else budget - markerLen
  }

  /** The suffix of the n newest messages. */
  function Newest(messages: seq<Message>, n: nat): seq<Message>
    requires n <= |messages|
  {
    messages[|messages| - n..]
  }

  /** How many of the newest messages fit in the room: the walk stops at the first that does not. */
  function Kept(messages: seq<Message>, room: nat): (n: nat)
    ensures n <= |messages| && Size(Newest(messages, n)) <= room
    ensures n < |messages| ==> Size(Newest(messages, n + 1)) > room
  {
    KeptFrom(messages, room, 0)
  }

  function KeptFrom(messages: seq<Message>, room: nat, n: nat): (k: nat)
    requires n <= |messages| && Size(Newest(messages, n)) <= room
    ensures n <= k <= |messages| && Size(Newest(messages, k)) <= room
    ensures k < |messages| ==> Size(Newest(messages, k + 1)) > room
    decreases |messages| - n
  {
    if n < |messages| && Size(Newest(messages, n + 1)) <= room then KeptFrom(messages, room, n + 1) else n
  }

  /** The transcript under a budget, with the given marker text; a zero budget means no cap. */
  function Assemble(messages: seq<Message>, budget: int, marker: string): Assembled {
    if budget == 0 || messages == [] || Size(messages) <= budget then
      Assembled(messages, false)
    else
      Assembled([Message(System, marker)] + Newest(messages, Kept(messages, Room(budget, |marker|))), true)
  }

  lemma {:induction false} SizeAppend(a: seq<Message>, b: seq<Message>)
    ensures Size(a + b) == Size(a) + Size(b)
  {
    if a == [] {
      assert a + b == b;
    } else {
      assert (a + b)[1..] == a[1..] + b;
      SizeAppend(a[1..], b);
    }
  }

  /** A longer suffix is never smaller, so the walk's first failure is final. */
  lemma SuffixGrows(messages: seq<Message>, m: nat, n: nat)
    requires m <= n <= |messages|
    ensures Size(Newest(messages, m)) <= Size(Newest(messages, n))
  {
    var older := messages[|messages| - n..|messages| - m];
    assert Newest(messages, n) == older + Newest(messages, m);
    SizeAppend(older, Newest(messages, m));
  }

  lemma FitsIff(messages: seq<Message>, room: nat, n: nat)
    requires n <= |messages|
    ensures Size(Newest(messages, n)) <= room <==> n <= Kept(messages, room)
  {
    var k := Kept(messages, room);
    if n <= k {
      SuffixGrows(messages, n, k);
    } else {
      SuffixGrows(messages, k + 1, n);
    }
  }

  /** The k newest messages fit in the room, and a suffix fits exactly when it is no longer. */
  ghost predicate LongestFit(messages: seq<Message>, room: nat, k: nat) {
    k <= |messages| && forall n | 0 <= n <= |messages| :: Size(Newest(messages, n)) <= room <==> n <= k
  }

  lemma KeptIsLongest(messages: seq<Message>, room: nat)
    ensures LongestFit(messages, room, Kept(messages, room))
  {
    forall n | 0 <= n <= |messages|
      ensures Size(Newest(messages, n)) <= room <==> n <= Kept(messages, room)
    {
      FitsIff(messages, room, n);
    }
  }

  lemma WithinBudget(messages: seq<Message>, budget: int, marker: string)
    requires budget >= |marker| && Size(messages) > budget
    ensures var k := Kept(messages, Room(budget, |marker|));
            Size([Message(System, marker)] + Newest(messages, k)) <= budget && k < |messages|
  {
    var k := Kept(messages, Room(budget, |marker|));
    SizeAppend([Message(System, marker)], Newest(messages, k));
    assert Newest(messages, |messages|) == messages;
  }

  /**
   * Truncation is optimal: a cut transcript is the marker followed by the longest suffix that fits
   * in what the marker leaves of the budget; a suffix fits exactly when it is no longer than the
   * one kept. A budget that pays for the marker is never exceeded, and something was dropped.
   */
  lemma TruncationIsOptimal(messages: seq<Message>, budget: int, marker: string)
    requires budget != 0 && messages != [] && Size(messages) > budget
    ensures var r := Assemble(messages, budget, marker);
            exists k: nat | LongestFit(messages, Room(budget, |marker|), k) ::
              && r == Assembled([Message(System, marker)] + Newest(messages, k), true)
              && (budget >= |marker| ==> Size(r.messages) <= budget && k < |messages|)
  {
    var room := Room(budget, |marker|);
    var k := Kept(messages, room);
    KeptIsLongest(messages, room);
    if budget >= |marker| {
      WithinBudget(messages, budget, marker);
    }
    assert LongestFit(messages, room, k);
  }

  method TotalSize(messages: seq<Message>) returns (total: nat)
    ensures total == Size(messages)
  {
    total := 0;
    for i := 0 to |messages|
      invariant total == Size(messages[..i])
    {
      assert messages[..i + 1] == messages[..i] + [messages[i]];
      SizeAppend(messages[..i], [messages[i]]);
      total := total + |messages[i].content|;
    }
    assert messages[..|messages|] == messages;
  }

  lemma OneMessageMore(messages: seq<Message>, n: nat)
    requires n < |messages|
    ensures Size(Newest(messages, n + 1)) == |messages[|messages| - 1 - n].content| + Size(Newest(messages, n))
  {
    assert Newest(messages, n + 1)[1..] == Newest(messages, n);
  }

  /** The source's walk from the newest message back. */
  method CountNewest(messages: seq<Message>, remaining: nat) returns (kept: nat)
    ensures kept == Kept(messages, remaining)
  {
    kept := 0;
    var acc := 0;
    var i := |messages| - 1;
    while i >= 0
      invariant -1 <= i < |messages| && kept == |messages| - 1 - i
      invariant acc == Size(Newest(messages, kept)) <= remaining
      invariant Kept(messages, remaining) == KeptFrom(messages, remaining, kept)
    {
      OneMessageMore(messages, kept);
      var msgLen := |messages[i].content|;
      if acc + msgLen > remaining {
        break;
      }
      acc := acc + msgLen;
      kept := kept + 1;
      i := i - 1;
    }
  }

  method AssembleBoundedContext(messages: seq<Message>, budget: int, marker: string) returns (r: Assembled)
    ensures r == Assemble(messages, budget, marker)
  {
    if budget == 0 || |messages| == 0 {
      return Assembled(messages, false);
    }
    var total := TotalSize(messages);
    if total <= budget {
      return Assembled(messages, false);
    }
    var remaining := budget - |marker|;
    if remaining < 0 {
      remaining := 0;
    }
    var kept := CountNewest(messages, remaining);
    r := Assembled([Message(System, marker)] + messages[|messages| - kept..], true);
  }

  function RoleName(role: Role): string {
    match role
    case User => "user"
    case Assistant => "assistant"
    case Peer => "peer"
    case System => "system"
  }

  function Line(m: Message): string {
    RoleName(m.role) + ": " + m.content
  }

  /** The flat text handed to the provider: one "role: content" line per message. */
  function ContextText(messages: seq<Message>): string {
    if messages == [] then ""
    else if |messages| == 1 then Line(messages[0])
    else Line(messages[0]) + "\n" + ContextText(messages[1..])
  }

  lemma {:induction false} OneLineMore(messages: seq<Message>, m: Message)
    ensures ContextText(messages + [m])
         == ContextText(messages) + (if messages == [] then "" else "\n") + Line(m)
  {
    if messages != [] {
      var all := messages + [m];
      assert all[1..] == messages[1..] + [m];
      OneLineMore(messages[1..], m);
    }
  }

  method FlattenContext(messages: seq<Message>) returns (text: string)
    ensures text == ContextText(messages)
  {
    text := "";
    for i := 0 to |messages|
      invariant text == ContextText(messages[..i])
    {
      assert messages[..i + 1] == messages[..i] + [messages[i]];
      OneLineMore(messages[..i], messages[i]);
      if i > 0 {
        text := text + "\n";
      }
      text := text + Line(messages[i]);
    }
    assert messages[..|messages|] == messages;
  }

  /** Every line names the role of its message, and no two roles have the same name. */
  lemma LinesNameRoles(m: Message, n: Message)
    ensures m.role == User ==> Line(m) == "user: " + m.content
    ensures m.role == Assistant ==> Line(m) == "assistant: " + m.content
    ensures m.role == Peer ==> Line(m) == "peer: " + m.content
    ensures m.role == System ==> Line(m) == "system: " + m.content
    ensures RoleName(m.role) == RoleName(n.role) <==> m.role == n.role
  {
    assert RoleName(m.role) + ": " == (match m.role case User => "user: " case Assistant => "assistant: "
                                                   case Peer => "peer: " case System => "system: ");
    assert RoleName(User)[0] == 'u' && RoleName(Assistant)[0] == 'a' && RoleName(Peer)[0] == 'p'
        && RoleName(System)[0] == 's';
  }

  /** The text of a transcript is that of its parts, one line break apart. */
  lemma {:induction false} TextOfParts(a: seq<Message>, b: seq<Message>)
    requires a != [] && b != []
    ensures ContextText(a + b) == ContextText(a) + "\n" + ContextText(b)
  {
    assert (a + b)[1..] == a[1..] + b;
    if |a| > 1 {
      TextOfParts(a[1..], b);
      assert Line(a[0]) + "\n" + (ContextText(a[1..]) + "\n" + ContextText(b))
          == Line(a[0]) + "\n" + ContextText(a[1..]) + "\n" + ContextText(b);
    } else {
      assert a[1..] + b == b;
    }
  }

  /** What fits is left as it is, and so is anything under a budget of zero. */
  lemma UncutStays(messages: seq<Message>, budget: int, marker: string)
    ensures Assemble(messages, budget, marker) == Assembled(messages, false) <==>
              budget == 0 || messages == [] || Size(messages) <= budget
    ensures Assemble(messages, budget, marker).truncated <==> budget != 0 && messages != [] && Size(messages) > budget
  {
  }
}
