/**
 * What a provider's answer asks for, read off the answer's own list by position: which entries become
 * actions, in which order and with which strings, and which entry, if any, finishes the task.
 */
module TurnReading {
  import opened Basics
  import opened Tasks
  import opened Machine

  /** The string a payload holds under a key. */
  predicate Holds(intent: ActionIntent, key: string, text: string) {
    if key in intent.payload && intent.payload[key].Text? then intent.payload[key].text == text else text == ""
  }

  /** The persisted form of a provider's entry. */
  predicate Persists(i: Intent, intent: ActionIntent) {
    i.kind == intent.kind && Holds(intent, "body", i.body) && Holds(intent, "target", i.target)
  }

  /** Strictly increasing positions, exactly those of the entries that are not a finish signal. */
  ghost predicate ActionPlaces(places: seq<nat>, intents: seq<ActionIntent>) {
    && (forall j, k | 0 <= j < k < |places| :: places[j] < places[k])
    && (forall p: nat :: p in places <==> p < |intents| && intents[p].kind != "finish_task")
  }

  /** These intents are the list's actions, each once and in the list's order. */
  ghost predicate ReadInOrder(asked: seq<Intent>, intents: seq<ActionIntent>) {
    exists places: seq<nat> :: ActionPlaces(places, intents) && PersistedAt(asked, intents, places)
  }

  ghost predicate PersistedAt(asked: seq<Intent>, intents: seq<ActionIntent>, places: seq<nat>) {
    && |places| == |asked|
    && forall j | 0 <= j < |asked| :: places[j] < |intents| && Persists(asked[j], intents[places[j]])
  }

  /** One more entry: its position is added, or nothing is. */
  lemma PlacesGrow(places: seq<nat>, intents: seq<ActionIntent>)
    requires intents != [] && ActionPlaces(places, Init(intents))
    ensures ActionPlaces(if Last(intents).kind == "finish_task" then places else places + [|intents| - 1], intents)
  {
    var last := |intents| - 1;
    var next := if Last(intents).kind == "finish_task" then places else places + [last];
    forall j | 0 <= j < |places|
      ensures places[j] < last
    {
      assert places[j] in places;
    }
    forall p: nat
      ensures p in next <==> p < |intents| && intents[p].kind != "finish_task"
    {
      assert p in next <==> p in places || (p == last && Last(intents).kind != "finish_task");
      assert p < last ==> intents[p] == Init(intents)[p];
    }
  }

  lemma PlacedBefore(places: seq<nat>, intents: seq<ActionIntent>, j: nat)
    requires intents != [] && ActionPlaces(places, Init(intents)) && j < |places|
    ensures places[j] < |intents| - 1 && intents[places[j]] == Init(intents)[places[j]]
  {
    assert places[j] in places;
  }

  /** The kept entries, by position. */
  ghost predicate KeptAt(kept: seq<ActionIntent>, intents: seq<ActionIntent>, places: seq<nat>) {
    |kept| == |places| && forall j | 0 <= j < |places| :: places[j] < |intents| && kept[j] == intents[places[j]]
  }

  lemma KeptGrows(kept: seq<ActionIntent>, intents: seq<ActionIntent>, places: seq<nat>)
    requires intents != [] && ActionPlaces(places, Init(intents)) && KeptAt(kept, Init(intents), places)
    ensures KeptAt(kept, intents, places)
    ensures KeptAt(kept + [Last(intents)], intents, places + [|intents| - 1])
  {
    forall j | 0 <= j < |places|
      ensures places[j] < |intents| - 1 && kept[j] == intents[places[j]]
    {
      PlacedBefore(places, intents, j);
    }
  }

  lemma {:induction false} ActionsArePlaced(intents: seq<ActionIntent>) returns (places: seq<nat>)
    ensures ActionPlaces(places, intents) && KeptAt(Actions(intents), intents, places)
  {
    if intents == [] {
      places := [];
    } else {
      var earlier := ActionsArePlaced(Init(intents));
      PlacesGrow(earlier, intents);
      KeptGrows(Actions(Init(intents)), intents, earlier);
      if Last(intents).kind == FINISH_TASK {
        assert Actions(intents) == Actions(Init(intents)) + [] == Actions(Init(intents));
        places := earlier;
      } else {
        places := earlier + [|intents| - 1];
      }
    }
  }

  /** The intents of a turn are the actions of the provider's own list, in its order. */
  lemma TurnIntentsAreRead(ans: ProviderAnswer)
    requires ans.Ran?
    ensures ReadInOrder(TurnIntents(ans), ans.intents)
  {
    var places := ActionsArePlaced(ans.intents);
    forall j | 0 <= j < |places|
      ensures Persists(TurnIntents(ans)[j], ans.intents[places[j]])
    {
      assert TurnIntents(ans)[j].kind == Actions(ans.intents)[j].kind;
    }
    assert PersistedAt(TurnIntents(ans), ans.intents, places);
  }

  // ------------------------------------------------------------- the finish

  /** Position p holds the first finish signal. */
  predicate FirstFinish(intents: seq<ActionIntent>, p: nat) {
    && p < |intents| && intents[p].kind == "finish_task"
    && forall q | 0 <= q < p :: intents[q].kind != "finish_task"
  }

  predicate HasKind(intents: seq<ActionIntent>, kind: string) {
    exists p | 0 <= p < |intents| :: intents[p].kind == kind
  }

  lemma {:induction false} FinishIsFirst(intents: seq<ActionIntent>)
    ensures FinishAnswer(intents).Some? <==> HasKind(intents, "finish_task")
    ensures forall p: nat | FirstFinish(intents, p) ::
              FinishAnswer(intents).Some? && Holds(intents[p], "body", FinishAnswer(intents).value)
  {
    if intents != [] {
      var earlier := Init(intents);
      FinishIsFirst(earlier);
      assert forall q | 0 <= q < |earlier| :: earlier[q] == intents[q];
      if HasKind(earlier, "finish_task") {
        var q :| 0 <= q < |earlier| && earlier[q].kind == "finish_task";
        assert intents[q].kind == "finish_task";
      }
      forall p: nat | FirstFinish(intents, p)
        ensures FinishAnswer(intents).Some? && Holds(intents[p], "body", FinishAnswer(intents).value)
      {
        if p < |earlier| {
          assert FirstFinish(earlier, p);
        }
      }
    }
  }

  /** What the answer makes of the task: the body of its first finish signal counts, next to no delegation. */
  ghost predicate FinishesWith(ans: ProviderAnswer, finish: Option<string>)
    requires ans.Ran?
  {
    && (finish.Some? <==> HasKind(ans.intents, "finish_task") && !HasKind(ans.intents, "delegate_task"))
    && (forall p: nat | finish.Some? && FirstFinish(ans.intents, p) :: Holds(ans.intents[p], "body", finish.value))
  }

  /** The output is the finish signal's body where that counts and says something, else the answer's own text. */
  ghost predicate Says(ans: ProviderAnswer, output: string)
    requires ans.Ran?
  {
    if HasKind(ans.intents, "finish_task") && !HasKind(ans.intents, "delegate_task") then
      forall p: nat | FirstFinish(ans.intents, p) ::
        if Holds(ans.intents[p], "body", "") then output == ans.output else Holds(ans.intents[p], "body", output)
    else output == ans.output
  }

  lemma DelegationIsRead(ans: ProviderAnswer)
    requires ans.Ran?
    ensures HasDelegation(Actions(ans.intents)) <==> HasKind(ans.intents, "delegate_task")
  {
    var places := ActionsArePlaced(ans.intents);
    if HasDelegation(Actions(ans.intents)) {
      var k :| 0 <= k < |Actions(ans.intents)| && Actions(ans.intents)[k].kind == DELEGATE_TASK;
      assert ans.intents[places[k]].kind == "delegate_task";
    }
    if p :| 0 <= p < |ans.intents| && ans.intents[p].kind == "delegate_task" {
      assert p in places;
      var k :| 0 <= k < |places| && places[k] == p;
      assert Actions(ans.intents)[k].kind == DELEGATE_TASK;
    }
  }

  lemma {:induction false} LeastFinish(intents: seq<ActionIntent>) returns (p: nat)
    requires HasKind(intents, "finish_task")
    ensures FirstFinish(intents, p)
  {
    p := 0;
    while intents[p].kind != "finish_task"
      invariant p < |intents| && forall q | 0 <= q < p :: intents[q].kind != "finish_task"
      invariant exists q | p <= q < |intents| :: intents[q].kind == "finish_task"
      decreases |intents| - p
    {
      p := p + 1;
    }
  }

  lemma AnswerIsRead(ans: ProviderAnswer)
    requires ans.Ran?
    ensures FinishesWith(ans, TurnFinish(ans)) && Says(ans, TurnOutput(ans))
  {
    DelegationIsRead(ans);
    FinishIsFirst(ans.intents);
  }

  /** The reading is exact: one finish and one output only fit an answer. */
  lemma ReadingIsExact(ans: ProviderAnswer, finish: Option<string>, output: string)
    requires ans.Ran? && FinishesWith(ans, finish) && Says(ans, output)
    ensures finish == TurnFinish(ans) && output == TurnOutput(ans)
  {
    AnswerIsRead(ans);
    if finish.Some? {
      var p := LeastFinish(ans.intents);
    }
  }
}
