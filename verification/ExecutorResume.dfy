/**
 Resuming a turn that was suspended for approval: when the withheld call was the last of its
 round, the rebuilt conversation is the one the turn would have had without the pause.
 */
module ExecutorResume {
  import opened Base
  import opened Transcript
  import opened SessionHistory
  import opened Executor
  import Reducer

  function FindResult(ms: seq<Message>, id: string): (r: nat)
    ensures r <= |ms| && (r < |ms| ==> ms[r].Tool? && ms[r].callId == id)
  {
    if ms == [] then 0
    else if ms[0].Tool? && ms[0].callId == id then 0
    else 1 + FindResult(ms[1..], id)
  }

  /** `createResumedState`: None where the withheld result is missing. */
  function Resumed(instructions: Option<string>, history: seq<Message>, record: ToolRecord, id: string): Option<State> {
    var ms := Opening(instructions) + history;
    var i := FindResult(ms, id);
    if i == |ms| then None
    else Some(FreshState(ms[i := Tool(id, ms[i].toolName, record.result.text)]).(records := [record]))
  }

  /** `createResumedState`, in place. */
  method CreateResumedState(instructions: Option<string>, history: seq<Message>, record: ToolRecord, id: string)
    returns (r: Option<State>)
    ensures r == Resumed(instructions, history, record, id)
  {
    var ms := Opening(instructions) + history;
    var i := 0;
    assert ms[0..] == ms;
    while i < |ms| && !(ms[i].Tool? && ms[i].callId == id)
      invariant i <= |ms| && FindResult(ms, id) == i + FindResult(ms[i..], id)
    {
      assert ms[i..][1..] == ms[i + 1..];
      i := i + 1;
    }
    if i == |ms| { return None; }
    var withheld := ms[i];
    ms := ms[i := Tool(withheld.callId, withheld.toolName, record.result.text)];
    r := Some(State(ms, [record], NoUsage(), 0, 0, None, [], 0, None));
  }

  /* ------------------------------------------------------- the round, with and without */

  /** The same surroundings, but the last call is answered at once instead of being withheld. */
  ghost predicate AnsweredDirectly(w: World, direct: World, calls: seq<ToolCall>, outcome: string)
    requires calls != []
  {
    && direct.limits == w.limits
    && (forall i :: 0 <= i < |calls| - 1 ==> Handle(direct, calls[i]) == Handle(w, calls[i]))
    && Handle(direct, calls[|calls| - 1]).Ran?
    && Handle(direct, calls[|calls| - 1]).record.result == Result(outcome)
  }

  predicate Unanswered(ms: seq<Message>, id: string) { forall m | m in ms :: m.Tool? ==> m.callId != id }

  /**
   A round that withholds its last call leaves the transcript of the round that answers it, but
   for the text of that one result, which comes last.
   */
  lemma {:induction false} WithheldLast(w: World, direct: World, s: State, calls: seq<ToolCall>, outcome: string)
    returns (before: seq<Message>, withheld: string)
    requires calls != [] && Calls(w, s, calls).Complete? && AnsweredDirectly(w, direct, calls, outcome)
    requires NoneWithheldBeforeLast(w, calls) && Distinct(Ids(calls)) && Unanswered(s.messages, calls[|calls| - 1].id)
    ensures var last := calls[|calls| - 1];
      && Calls(w, s, calls).state.messages == before + [Tool(last.id, last.name, withheld)]
      && Calls(direct, s, calls).Open?
      && Calls(direct, s, calls).state.messages == before + [Tool(last.id, last.name, outcome)]
      && Unanswered(before, last.id)
    ensures Calls(w, s, calls).state.repair == s.repair == Calls(direct, s, calls).state.repair
    decreases |calls|
  {
    var counted := s.(toolCallCount := s.toolCallCount + 1);
    var call, rest := calls[0], calls[1..];
    if |calls| == 1 {
      WithheldCall(w, s, call);
      before, withheld := s.messages, Handle(w, call).record.result.text;
    } else {
      assert calls[|calls| - 1] == rest[|rest| - 1];
      assert Ids(rest) == Ids(calls)[1..] && Ids(calls)[0] != Ids(calls)[|calls| - 1];
      forall i | 0 <= i < |rest| - 1 ensures Handle(direct, rest[i]) == Handle(w, rest[i]) {
        assert rest[i] == calls[i + 1];
      }
      assert !Withheld(w, call) && forall i :: 0 <= i < |rest| - 1 ==> rest[i] == calls[i + 1];
      match Handle(w, call)
      case Refused(text) => before, withheld := WithheldLast(w, direct, PushResult(counted, call, text), rest, outcome);
      case Ran(record) => before, withheld := WithheldLast(w, direct, Recorded(counted, call, record), rest, outcome);
    }
  }

  lemma WithheldCall(w: World, s: State, call: ToolCall)
    requires Calls(w, s, [call]).Complete?
    ensures Handle(w, call).Ran? && Handle(w, call).record.result.PendingApproval?
    ensures Calls(w, s, [call]).state.messages
      == s.messages + [Tool(call.id, call.name, Handle(w, call).record.result.text)]
  {
    assert [call][1..] == [];
  }

  /* ------------------------------------------------------------------- what is rebuilt */

  lemma {:induction false} FindLast(before: seq<Message>, m: Message, id: string)
    requires m.Tool? && m.callId == id && Unanswered(before, id)
    ensures FindResult(before + [m], id) == |before|
  {
    if before != [] {
      assert before[0] in before && (before + [m])[1..] == before[1..] + [m];
      FindLast(before[1..], m, id);
    }
  }

  predicate NoSystem(ms: seq<Message>) { forall m | m in ms :: !m.System? }

  lemma {:induction false} NothingDropped(ms: seq<Message>)
    requires NoSystem(ms)
    ensures WithoutSystem(ms) == ms
  {
    if ms != [] {
      assert ms[0] in ms;
      NothingDropped(ms[1..]);
    }
  }

  lemma OpeningDropped(instructions: Option<string>, ms: seq<Message>)
    requires NoSystem(ms)
    ensures WithoutSystem(Opening(instructions) + ms) == ms
  {
    NothingDropped(ms);
    var opening := Opening(instructions);
    if opening == [] {
      assert opening + ms == ms;
    } else {
      assert (opening + ms)[1..] == ms;
    }
  }

  /**
   Suspension is transparent: from the approval's checkpoint, which drops the system messages, the
   resumed turn starts on the very messages the uninterrupted turn would go on with, and without a
   reducer it sends the very same request.
   */
  lemma SuspensionIsTransparent(
      w: World, direct: World, s: State, response: Response, instructions: Option<string>, rest: seq<Message>,
      record: ToolRecord)
    requires response.calls != [] && s.messages == Opening(instructions) + rest && NoSystem(rest) && NoSystem(s.repair)
    requires ApplyRound(w, s, response).Complete?
    requires AnsweredDirectly(w, direct, response.calls, record.result.text)
    requires NoneWithheldBeforeLast(w, response.calls) && Distinct(Ids(response.calls))
    requires Unanswered(s.messages + s.repair, response.calls[|response.calls| - 1].id)
    ensures var checkpoint := WithoutSystem(ApplyRound(w, s, response).state.messages);
      var resumed := Resumed(instructions, checkpoint, record, response.calls[|response.calls| - 1].id);
      && resumed.Some? && ApplyRound(direct, s, response).Open?
      && resumed.value.messages == ApplyRound(direct, s, response).state.messages
      && resumed.value.repair == ApplyRound(direct, s, response).state.repair == []
      && forall v: World | v.reduce.None? ::
           Request(v, resumed.value) == Request(v, ApplyRound(direct, s, response).state)
  {
    var taken, opening := TakenIn(s, response), Opening(instructions);
    var last := response.calls[|response.calls| - 1];
    var before, withheld := WithheldLast(w, direct, taken, response.calls, record.result.text);
    var suspended := before + [Tool(last.id, last.name, withheld)];
    var resumed := before + [Tool(last.id, last.name, record.result.text)];
    var kept := KeptFront(w, s, response, opening, rest);
    assert ApplyRound(w, s, response).state.messages == suspended == opening + kept;
    OpeningDropped(instructions, kept);
    FindLast(before, Tool(last.id, last.name, withheld), last.id);
    assert suspended[|before| := Tool(last.id, last.name, record.result.text)] == resumed;
  }

  /** A round adds no system message, and leaves the opening in front. */
  lemma KeptFront(w: World, s: State, response: Response, opening: seq<Message>, rest: seq<Message>)
    returns (kept: seq<Message>)
    requires s.messages == opening + rest && NoSystem(rest) && NoSystem(s.repair) && response.calls != []
    requires !ApplyRound(w, s, response).Abandoned?
    ensures ApplyRound(w, s, response).state.messages == opening + kept && NoSystem(kept)
  {
    var added := s.repair + [Assistant(response.content, response.calls)];
    assert TakenIn(s, response).messages == opening + (rest + added);
    kept := CallsFront(w, TakenIn(s, response), response.calls, opening, rest + added);
  }

  lemma {:induction false} CallsFront(w: World, s: State, calls: seq<ToolCall>, opening: seq<Message>,
      rest: seq<Message>)
    returns (kept: seq<Message>)
    requires s.messages == opening + rest && NoSystem(rest) && !Calls(w, s, calls).Abandoned?
    ensures Calls(w, s, calls).state.messages == opening + kept && NoSystem(kept)
    decreases |calls|
  {
    if calls == [] {
      kept := rest;
    } else {
      var counted := s.(toolCallCount := s.toolCallCount + 1);
      match Handle(w, calls[0])
      case Refused(text) =>
        var m := Tool(calls[0].id, calls[0].name, text);
        Assoc(opening, rest, [m]);
        kept := CallsFront(w, PushResult(counted, calls[0], text), calls[1..], opening, rest + [m]);
      case Ran(record) =>
        var m := Tool(calls[0].id, calls[0].name, record.result.text);
        Assoc(opening, rest, [m]);
        if record.result.PendingApproval? {
          kept := rest + [m];
        } else {
          kept := CallsFront(w, Recorded(counted, calls[0], record), calls[1..], opening, rest + [m]);
        }
    }
  }

  /* ------------------------------------------------------------ and what is sent of it */

  /**
   A resumed turn tells the reducer which group was pending, the uninterrupted turn does not.  With
   that group the newest, the request is the same exactly when at least one group is retained.
   */
  lemma SameRequestIffRetained(ms: seq<Message>, group: seq<Message>, id: string, o: Reducer.Options)
    requires group != [] && Declares(group[0], id) && ToolsOnly(group[1..])
    requires Reducer.HoldCount(ms, Some(id)) == 0
    ensures Reducer.Reduced(ms + group, Some(id), o) == Reducer.Reduced(ms + group, None, o) <==> o.keepLast >= 1
  {
    Reducer.CountAppend(ms, group);
    Reducer.NoGroups(group[1..]);
    Reducer.PendingMattersIff(ms + group, id, o);
    Reducer.HeldBehind(ms, group, Reducer.Cutoff(ms + group, o), id);
  }
}
