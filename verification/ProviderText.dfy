/**
 * The text a provider receives against the budget. The budget bounds the contents of the messages; the
 * text adds a role prefix and a line break to each, so it can be longer. How much longer depends on which
 * transcripts a task can have when it calls its provider.
 */
module ProviderText {
  import opened Basics
  import opened BoundedContext

  // ----------------------------------------------------------- exact length

  /** What the lines add to the contents: a role prefix and a line break each. */
  function Widths(messages: seq<Message>): nat {
    if messages == [] then 0 else |RoleName(messages[0].role)| + 3 + Widths(messages[1..])
  }

  /** The last line has no break. */
  lemma {:induction false} TextLength(messages: seq<Message>)
    ensures |ContextText(messages)| == if messages == [] then 0 else Size(messages) + Widths(messages) - 1
  {
    if |messages| > 1 {
      TextLength(messages[1..]);
    } else if |messages| == 1 {
      assert messages[1..] == [];
    }
  }

  /** What the contents of an assembled transcript are bounded by: the marker is paid for first. */
  function Cap(budget: int, marker: string): int {
    if budget < |marker| then |marker| else budget
  }

  /** A cut transcript, taken apart. */
  lemma CutText(messages: seq<Message>, budget: int, marker: string, k: nat)
    requires budget != 0 && messages != [] && Size(messages) > budget
    requires LongestFit(messages, Room(budget, |marker|), k)
    ensures var r := Assemble(messages, budget, marker).messages;
            && r == [Message(System, marker)] + Newest(messages, k)
            && |ContextText(r)| == |marker| + 8 + Size(Newest(messages, k)) + Widths(Newest(messages, k))
            && |marker| + Size(Newest(messages, k)) <= Cap(budget, marker)
  {
    var room := Room(budget, |marker|);
    KeptIsLongest(messages, room);
    var kept := Kept(messages, room);
    assert Size(Newest(messages, k)) <= room && Size(Newest(messages, kept)) <= room;
    assert k == kept;
    var r := [Message(System, marker)] + Newest(messages, k);
    assert r[1..] == Newest(messages, k);
    TextLength(r);
  }

  /**
   * When the provider's text fits the budget: uncut, if the contents and all the lines' widths do; cut, if
   * the marker's line does together with the lines of the longest suffix whose contents fit.
   */
  lemma TextFitsIff(messages: seq<Message>, budget: int, marker: string)
    requires budget != 0 && messages != []
    ensures var text := ContextText(Assemble(messages, budget, marker).messages);
            && (Size(messages) <= budget ==>
                  (|text| <= budget <==> Size(messages) + Widths(messages) <= budget + 1))
            && (Size(messages) > budget ==>
                  forall k: nat | LongestFit(messages, Room(budget, |marker|), k) ::
                    |text| <= budget <==>
                    |marker| + 8 + Size(Newest(messages, k)) + Widths(Newest(messages, k)) <= budget)
  {
    TextLength(messages);
    if Size(messages) > budget {
      forall k: nat | LongestFit(messages, Room(budget, |marker|), k)
        ensures |ContextText(Assemble(messages, budget, marker).messages)|
             == |marker| + 8 + Size(Newest(messages, k)) + Widths(Newest(messages, k))
      {
        CutText(messages, budget, marker, k);
      }
    }
  }

  // ------------------------------------------- transcripts of a provider call

  predicate Follows(a: Role, b: Role) {
    (a == Assistant ==> b != Assistant) && (a == System ==> b == User)
  }

  /** No answer directly follows an answer, and the note on a followed task comes before a user's turn. */
  predicate Alternates(messages: seq<Message>) {
    forall k | 0 <= k < |messages| - 1 :: Follows(messages[k].role, messages[k + 1].role)
  }

  /** A task's transcript: it opens with a user's turn and does not end on such a note. */
  predicate Chat(messages: seq<Message>) {
    messages != [] && messages[0].role == User && Alternates(messages) && Last(messages).role != System
  }

  /** The provider is called again after a user's or a peer's turn only. */
  predicate Callable(messages: seq<Message>) {
    Chat(messages) && Last(messages).role != Assistant
  }

  lemma ChatGrows(messages: seq<Message>, m: Message)
    requires Chat(messages) && (m.role == Peer || (m.role == Assistant && Last(messages).role != Assistant))
    ensures Chat(messages + [m])
  {
  }

  /** Any two lines of such a transcript add 19 bytes at most. */
  lemma {:induction false} WidthsBound(messages: seq<Message>)
    requires Alternates(messages) && (messages != [] ==> Last(messages).role == User || Last(messages).role == Peer)
    ensures 2 * Widths(messages) <= 19 * |messages|
  {
    if messages != [] {
      var rest := messages[1..];
      if messages[0].role != Assistant {
        WidthsBound(rest);
      } else {
        assert Follows(messages[0].role, messages[1].role) && rest[1..] == messages[2..];
        if messages[1].role != System {
          WidthsBound(messages[2..]);
        } else {
          assert Follows(messages[1].role, messages[2].role) && messages[2..][1..] == messages[3..];
          WidthsBound(messages[3..]);
        }
      }
    }
  }

  lemma {:induction false} AnyWidthsBound(messages: seq<Message>)
    ensures Widths(messages) <= 12 * |messages|
  {
    if messages != [] {
      AnyWidthsBound(messages[1..]);
    }
  }

  /** The excess over the budget, for transcripts that open with a user's turn and for those of a call. */
  lemma TextExceedsByAtMost(messages: seq<Message>, budget: int, marker: string)
    requires budget != 0 && messages != [] && messages[0].role == User
    ensures var r := Assemble(messages, budget, marker).messages;
            && |ContextText(r)| <= Cap(budget, marker) + 12 * |r| - 4
            && (Callable(messages) ==> 2 * |ContextText(r)| <= 2 * Cap(budget, marker) + 19 * |r| - 3)
  {
    if Size(messages) > budget {
      CutExceedsByAtMost(messages, budget, marker);
    } else {
      UncutExceedsByAtMost(messages);
    }
  }

  lemma SuffixWidths(messages: seq<Message>, k: nat)
    requires Callable(messages) && k <= |messages|
    ensures 2 * Widths(Newest(messages, k)) <= 19 * k
  {
    var suffix := Newest(messages, k);
    forall j | 0 <= j < |suffix| - 1
      ensures Follows(suffix[j].role, suffix[j + 1].role)
    {
      var i := |messages| - k + j;
      assert suffix[j] == messages[i] && suffix[j + 1] == messages[i + 1];
    }
    WidthsBound(suffix);
  }

  lemma CutExceedsByAtMost(messages: seq<Message>, budget: int, marker: string)
    requires budget != 0 && messages != [] && Size(messages) > budget
    ensures var r := Assemble(messages, budget, marker).messages;
            && |ContextText(r)| <= Cap(budget, marker) + 12 * |r| - 4
            && (Callable(messages) ==> 2 * |ContextText(r)| <= 2 * Cap(budget, marker) + 19 * |r| - 3)
  {
    var k := Kept(messages, Room(budget, |marker|));
    KeptIsLongest(messages, Room(budget, |marker|));
    CutText(messages, budget, marker, k);
    var suffix := Newest(messages, k);
    AnyWidthsBound(suffix);
    if Callable(messages) {
      SuffixWidths(messages, k);
    }
  }

  lemma UncutExceedsByAtMost(messages: seq<Message>)
    requires messages != [] && messages[0].role == User
    ensures |ContextText(messages)| <= Size(messages) + 12 * |messages| - 6
    ensures Callable(messages) ==> 2 * |ContextText(messages)| <= 2 * Size(messages) + 19 * |messages| - 7
  {
    TextLength(messages);
    AnyWidthsBound(messages[1..]);
    if Callable(messages) {
      forall j | 0 <= j < |messages| - 2
        ensures Follows(messages[1..][j].role, messages[1..][j + 1].role)
      {
        assert messages[1..][j] == messages[j + 1] && messages[1..][j + 1] == messages[j + 1 + 1];
      }
      WidthsBound(messages[1..]);
    }
  }

  // ------------------------------------------------- the excess is reached

  function Repeated(block: seq<Message>, n: nat): seq<Message> {
    if n == 0 then [] else block + Repeated(block, n - 1)
  }

  lemma {:induction false} RepeatedAppend(block: seq<Message>, n: nat)
    ensures Repeated(block, n + 1) == Repeated(block, n) + block
  {
    if n > 0 {
      RepeatedAppend(block, n - 1);
      assert block + (Repeated(block, n - 1) + block) == block + Repeated(block, n - 1) + block;
    } else {
      assert block + [] == [] + block;
    }
  }

  lemma {:induction false} WidthsAppend(a: seq<Message>, b: seq<Message>)
    ensures Widths(a + b) == Widths(a) + Widths(b)
  {
    if a == [] {
      assert a + b == b;
    } else {
      assert (a + b)[1..] == a[1..] + b;
      WidthsAppend(a[1..], b);
    }
  }

  const ANSWER := Message(Assistant, "x")
  const RESULT := Message(Peer, "x")

  lemma BlockMeasures()
    ensures Size([ANSWER]) == 1 && Widths([ANSWER]) == 12
    ensures Size([ANSWER, RESULT]) == 2 && Widths([ANSWER, RESULT]) == 19
  {
    assert [ANSWER][1..] == [] && [ANSWER, RESULT][1..] == [RESULT] && [RESULT][1..] == [];
  }

  lemma {:induction false} AnswersMeasure(n: nat)
    ensures var rest := Repeated([ANSWER], n); |rest| == n && Size(rest) == n && Widths(rest) == 12 * n
  {
    BlockMeasures();
    if n > 0 {
      AnswersMeasure(n - 1);
      SizeAppend([ANSWER], Repeated([ANSWER], n - 1));
      WidthsAppend([ANSWER], Repeated([ANSWER], n - 1));
    }
  }

  lemma {:induction false} RoundsMeasure(n: nat)
    ensures var rest := Repeated([ANSWER, RESULT], n); |rest| == 2 * n && Size(rest) == 2 * n && Widths(rest) == 19 * n
  {
    BlockMeasures();
    if n > 0 {
      RoundsMeasure(n - 1);
      SizeAppend([ANSWER, RESULT], Repeated([ANSWER, RESULT], n - 1));
      WidthsAppend([ANSWER, RESULT], Repeated([ANSWER, RESULT], n - 1));
    }
  }

  /** Behind a first turn that does not fit, a rest that just does. */
  lemma RestFits(messages: seq<Message>)
    requires messages != [] && messages[0].content != ""
    ensures LongestFit(messages, Size(messages[1..]), |messages| - 1)
  {
    var n := |messages| - 1;
    assert Newest(messages, n) == messages[1..] && Newest(messages, n + 1) == messages;
    FitsIff(messages, Size(messages[1..]), n);
    FitsIff(messages, Size(messages[1..]), n + 1);
    KeptIsLongest(messages, Size(messages[1..]));
  }

  /** A first turn too long to keep, and behind it a rest that just fills what the marker leaves. */
  lemma RestIsKept(messages: seq<Message>, budget: nat, marker: string)
    requires marker != "" && messages != [] && |messages[0].content| > |marker|
    requires budget == |marker| + Size(messages[1..])
    ensures var r := Assemble(messages, budget, marker).messages;
            |r| == |messages| && |ContextText(r)| == budget + 8 + Widths(messages[1..])
  {
    RestFits(messages);
    assert Newest(messages, |messages| - 1) == messages[1..];
    CutText(messages, budget, marker, |messages| - 1);
  }

  function LongTurn(marker: string): (m: Message)
    ensures m.role == User && |m.content| > |marker|
  {
    Message(User, marker + "x")
  }

  /** With any number of answers behind the user's turn the first bound is reached. */
  lemma ExcessIsReached(n: nat, marker: string) returns (messages: seq<Message>, budget: nat)
    requires marker != ""
    ensures messages != [] && messages[0].role == User && budget >= |marker|
    ensures var r := Assemble(messages, budget, marker).messages;
            |r| == n + 1 && |ContextText(r)| == Cap(budget, marker) + 12 * |r| - 4
  {
    AnswersMeasure(n);
    messages, budget := [LongTurn(marker)] + Repeated([ANSWER], n), |marker| + n;
    assert messages[1..] == Repeated([ANSWER], n);
    RestIsKept(messages, budget, marker);
  }

  /** With any number of answers and peer results in turn, as a task has them at a call, the second is. */
  lemma CallExcessIsReached(n: nat, marker: string) returns (messages: seq<Message>, budget: nat)
    requires marker != ""
    ensures Callable(messages) && messages[1..] == Repeated([ANSWER, RESULT], n) && budget >= |marker|
    ensures var r := Assemble(messages, budget, marker).messages;
            |r| == 2 * n + 1 && 2 * |ContextText(r)| == 2 * Cap(budget, marker) + 19 * |r| - 3
  {
    RoundsMeasure(n);
    RoundsAreCallable(LongTurn(marker), n);
    messages, budget := [LongTurn(marker)] + Repeated([ANSWER, RESULT], n), |marker| + 2 * n;
    assert messages[1..] == Repeated([ANSWER, RESULT], n);
    RestIsKept(messages, budget, marker);
  }

  lemma {:induction false} RoundsAreCallable(first: Message, n: nat)
    requires first.role == User || first.role == Peer
    decreases n
    ensures var messages := [first] + Repeated([ANSWER, RESULT], n);
            Alternates(messages) && Last(messages).role == if n == 0 then first.role else Peer
  {
    if n > 0 {
      RoundsAreCallable(RESULT, n - 1);
      var tail := [RESULT] + Repeated([ANSWER, RESULT], n - 1);
      var messages := [first] + Repeated([ANSWER, RESULT], n);
      assert messages == [first, ANSWER] + tail;
      forall k | 0 <= k < |messages| - 1
        ensures Follows(messages[k].role, messages[k + 1].role)
      {
        if k >= 2 {
          assert messages[k] == tail[k - 2] && messages[k + 1] == tail[k - 1];
        }
      }
    }
  }
}
