/**
 Transcripts over any number of turns: with fresh call ids, every transcript the loop works on and
 every history it stores is a protocol transcript, exactly as long as no round is suspended
 before its last call.
 */
module ExecutorSession {
  import opened Base
  import opened Transcript
  import opened SessionHistory
  import opened Executor
  import ExecutorResume

  /** Every id a transcript has declared. */
  function Declared(ms: seq<Message>): set<string> {
    if ms == [] then {}
    else (if Opens(ms[0]) then IdSet(Ids(ms[0].calls)) else {}) + Declared(ms[1..])
  }

  lemma {:induction false} DeclaredResults(ms: seq<Message>)
    ensures Declared(ms) == Declared(ms[Results(ms)..])
  {
    if ms != [] && ms[0].Tool? {
      DeclaredResults(ms[1..]);
      assert ms[1..][Results(ms[1..])..] == ms[Results(ms)..];
    } else {
      assert ms[0..] == ms;
    }
  }

  lemma {:induction false} DeclaredAppend(a: seq<Message>, b: seq<Message>)
    ensures Declared(a + b) == Declared(a) + Declared(b)
  {
    if a == [] {
      assert a + b == b;
    } else {
      assert (a + b)[1..] == a[1..] + b;
      DeclaredAppend(a[1..], b);
    }
  }

  lemma DeclaredGroup(head: Message, results: seq<Message>, rest: seq<Message>)
    requires Opens(head) && ToolsOnly(results) && OpensFree(rest)
    ensures Declared([head] + (results + rest)) == IdSet(Ids(head.calls)) + Declared(rest)
  {
    Joined(head, results, rest);
    DeclaredResults(results + rest);
    assert (results + rest)[|results|..] == rest;
  }

  /** A protocol transcript goes on as one exactly when what is added is one, given the ids used. */
  lemma {:induction false} ProtocolAppend(ms: seq<Message>, tail: seq<Message>, seen: set<string>)
    requires Protocol(ms, seen, None) && OpensFree(tail)
    ensures Protocol(ms + tail, seen, None) <==> Protocol(tail, seen + Declared(ms), None)
    decreases |ms|, 1
  {
    if ms == [] {
      assert ms + tail == tail && seen + {} == seen;
    } else if Opens(ms[0]) {
      var results, rest := Split(ms);
      ProtocolGroup(ms[0], results, rest, seen, None);
      GroupAppend(ms[0], results, rest, tail, seen);
    } else {
      assert ms == [ms[0]] + ms[1..];
      PlainAppend(ms[0], ms[1..], tail, seen);
    }
  }

  lemma {:induction false} GroupAppend(head: Message, results: seq<Message>, rest: seq<Message>, tail: seq<Message>,
      seen: set<string>)
    requires Opens(head) && ToolsOnly(results) && OpensFree(rest) && OpensFree(tail)
    requires Distinct(Ids(head.calls)) && IdSet(Ids(head.calls)) !! seen
    requires Answers(Ids(head.calls), Answered(results), true) && Protocol(rest, seen + IdSet(Ids(head.calls)), None)
    ensures Protocol([head] + (results + rest) + tail, seen, None)
      <==> Protocol(tail, seen + Declared([head] + (results + rest)), None)
    decreases 1 + |results| + |rest|, 0
  {
    var ids := IdSet(Ids(head.calls));
    ProtocolAppend(rest, tail, seen + ids);
    ProtocolGroup(head, results, rest + tail, seen, None);
    assert [head] + (results + rest) + tail == [head] + (results + (rest + tail));
    DeclaredGroup(head, results, rest);
    assert (seen + ids) + Declared(rest) == seen + (ids + Declared(rest));
  }

  lemma {:induction false} PlainAppend(m: Message, rest: seq<Message>, tail: seq<Message>, seen: set<string>)
    requires !Opens(m) && OpensFree(tail) && Protocol([m] + rest, seen, None)
    ensures Protocol([m] + rest + tail, seen, None) <==> Protocol(tail, seen + Declared([m] + rest), None)
    decreases 1 + |rest|, 0
  {
    assert ([m] + rest)[1..] == rest && [m] + rest + tail == [m] + (rest + tail);
    ProtocolAppend(rest, tail, seen);
    ProtocolPlain(m, rest + tail, seen, None);
    assert Declared([m] + rest) == Declared(rest);
  }

  /* --------------------------------------------------------------------- one round */

  predicate PlainOnly(ms: seq<Message>) { forall m | m in ms :: !m.Tool? && !Opens(m) }

  lemma {:induction false} PlainProtocols(ms: seq<Message>, seen: set<string>)
    requires PlainOnly(ms)
    ensures Protocol(ms, seen, None) && Declared(ms) == {}
  {
    if ms != [] {
      assert ms[0] in ms && PlainOnly(ms[1..]);
      PlainProtocols(ms[1..], seen);
    }
  }

  /** Results answering the calls of a request, in order, as far as they go. */
  ghost predicate AnswersInOrder(results: seq<Message>, calls: seq<ToolCall>) {
    |results| <= |calls| && forall i :: 0 <= i < |results| ==> results[i].Tool? && results[i].callId == calls[i].id
  }

  /** Each call of a round is answered by one result, in order, up to where the round stops. */
  lemma {:induction false} CallsAnswer(w: World, s: State, calls: seq<ToolCall>) returns (results: seq<Message>)
    requires !Calls(w, s, calls).Abandoned?
    ensures Calls(w, s, calls).state.messages == s.messages + results && AnswersInOrder(results, calls)
    ensures Calls(w, s, calls).Open? ==> |results| == |calls|
    ensures Calls(w, s, calls).state.repair == s.repair
    decreases |calls|
  {
    if calls == [] {
      results := [];
    } else {
      var counted := s.(toolCallCount := s.toolCallCount + 1);
      match Handle(w, calls[0])
      case Refused(text) =>
        var rest := CallsAnswer(w, PushResult(counted, calls[0], text), calls[1..]);
        results := [Tool(calls[0].id, calls[0].name, text)] + rest;
      case Ran(record) =>
        var first := Tool(calls[0].id, calls[0].name, record.result.text);
        if record.result.PendingApproval? {
          results := [first];
        } else {
          var rest := CallsAnswer(w, Recorded(counted, calls[0], record), calls[1..]);
          results := [first] + rest;
        }
    }
  }

  /** Answers in order are all the answers exactly when there are as many as calls. */
  lemma InOrderIsWhole(results: seq<Message>, calls: seq<ToolCall>)
    requires AnswersInOrder(results, calls) && Distinct(Ids(calls))
    ensures Answers(Ids(calls), Answered(results), true) <==> |results| == |calls|
  {
    var ids, answered := Ids(calls), Answered(results);
    assert answered == ids[..|results|];
    if |results| == |calls| {
      assert answered == ids;
    } else {
      var missing := ids[|results|];
      assert missing in IdSet(ids);
      assert forall k :: 0 <= k < |answered| ==> answered[k] != missing;
    }
  }

  /** A request and the results that answer it: a whole group exactly when every call is answered. */
  lemma GroupProtocol(content: string, calls: seq<ToolCall>, results: seq<Message>, more: seq<Message>,
      seen: set<string>)
    requires calls != [] && AnswersInOrder(results, calls) && PlainOnly(more)
    requires Distinct(Ids(calls)) && IdSet(Ids(calls)) !! seen
    ensures Protocol([Assistant(content, calls)] + results + more, seen, None) <==> |results| == |calls|
  {
    var head := Assistant(content, calls);
    assert more != [] ==> more[0] in more;
    PlainProtocols(more, seen + IdSet(Ids(calls)));
    InOrderIsWhole(results, calls);
    ProtocolGroup(head, results, more, seen, None);
    assert [head] + results + more == [head] + (results + more);
  }

  /* ------------------------------------------------------------------------ one turn */

  ghost predicate Responds(w: World, s: State, response: Response) {
    Request(w, s).Some? && w.generate(Request(w, s).value, s.iteration) == Some(response)
  }

  /** The model names its calls anew: distinct ids, none used before. */
  ghost predicate FreshCalls(w: World, s: State) {
    forall response {:trigger Responds(w, s, response)} :: Responds(w, s, response) ==>
      Distinct(Ids(response.calls)) && IdSet(Ids(response.calls)) !! Declared(s.messages)
  }

  /** No round is suspended before its last call. */
  ghost predicate WholeRound(w: World, s: State) {
    forall response {:trigger Responds(w, s, response)} :: Responds(w, s, response) ==>
      ApplyRound(w, s, response).Complete? ==> NoneWithheldBeforeLast(w, response.calls)
  }

  /** Both, at every pass of the turn. */
  ghost predicate Disciplined(w: World, s: State)
    decreases w.limits.maxIterations - s.iteration
  {
    && FreshCalls(w, s) && WholeRound(w, s)
    && match Step(w, s) case Going(next) => (StepCounts(w, s); Disciplined(w, next)) case Ended(_) => true
  }

  ghost predicate Tidy(s: State) { Protocol(s.messages, {}, None) && PlainOnly(s.repair) }

  /** A round adds its group behind the transcript and the repair prompt the model was shown. */
  lemma RoundAdds(w: World, s: State, response: Response) returns (results: seq<Message>)
    requires response.calls != [] && !ApplyRound(w, s, response).Abandoned?
    ensures var next := ApplyRound(w, s, response).state;
      && next.messages == (s.messages + s.repair) + ([Assistant(response.content, response.calls)] + results)
      && next.repair == []
    ensures AnswersInOrder(results, response.calls)
    ensures |results| == |response.calls| <==>
      ApplyRound(w, s, response).Open? || NoneWithheldBeforeLast(w, response.calls)
  {
    var taken := TakenIn(s, response);
    results := CallsAnswer(w, taken, response.calls);
    Assoc(s.messages + s.repair, [Assistant(response.content, response.calls)], results);
    if Calls(w, taken, response.calls).Complete? { WholeIff(w, taken, response.calls); }
  }

  /** What a round makes of a tidy state: tidy again exactly when no call before the last is withheld. */
  lemma RoundIsTidy(w: World, s: State, response: Response)
    requires Tidy(s) && Distinct(Ids(response.calls)) && IdSet(Ids(response.calls)) !! Declared(s.messages)
    requires response.calls != [] && !ApplyRound(w, s, response).Abandoned?
    ensures var next := ApplyRound(w, s, response).state;
      && next.repair == []
      && forall more | PlainOnly(more) :: (Protocol(next.messages + more, {}, None)
          <==> ApplyRound(w, s, response).Open? || NoneWithheldBeforeLast(w, response.calls))
  {
    var results := RoundAdds(w, s, response);
    var group := [Assistant(response.content, response.calls)] + results;
    var before := s.messages + s.repair;
    PlainProtocols(s.repair, Declared(s.messages));
    assert s.repair != [] ==> s.repair[0] in s.repair;
    assert {} + Declared(s.messages) == Declared(s.messages);
    ProtocolAppend(s.messages, s.repair, {});
    DeclaredAppend(s.messages, s.repair);
    assert {} + Declared(before) == Declared(s.messages);
    forall more | PlainOnly(more)
      ensures Protocol((before + group) + more, {}, None) <==> |results| == |response.calls|
    {
      Assoc(before, group, more);
      ProtocolAppend(before, group + more, {});
      GroupProtocol(response.content, response.calls, results, more, Declared(s.messages));
    }
  }

  lemma RepairIsPlain(spec: Spec, content: string, issues: seq<string>)
    ensures PlainOnly(RepairMessages(spec, content, issues))
  {}

  lemma PublishedIsTidy(s: State, content: string)
    requires Protocol(s.messages, {}, None)
    ensures Protocol(PublishedTranscript(s, content), {}, None)
  {
    if content != "" {
      var tail := [Assistant(content, [])];
      PlainProtocols(tail, {} + Declared(s.messages));
      ProtocolAppend(s.messages, tail, {});
    }
  }

  /** The transcript a turn hands over for storing, if it hands one over. */
  function HandedOver(end: End): Option<seq<Message>> {
    match end case Answer(_, _, _, _, transcript, _) => Some(transcript) case Failed(_, kept) => kept
  }

  /** What the turn hands over for storing, and what it attaches to an approval, are protocol transcripts. */
  ghost predicate TidyEnd(end: End) {
    && (HandedOver(end).Some? ==> Protocol(HandedOver(end).value, {}, None))
    && (end.Answer? && end.held.Some? ==> Protocol(end.held.value.1, {}, None))
  }

  lemma ConcludeIsTidy(w: World, s: State, response: Response)
    requires Tidy(s)
    ensures match Conclude(w, s, response)
      case Going(next) => Tidy(next)
      case Ended(end) => TidyEnd(end)
  {
    PublishedIsTidy(s, response.content);
    if JudgeOutput(w, s, response).Again? {
      RepairIsPlain(w.spec.value, response.content, Judge(w.spec.value, response).issues);
    }
  }

  lemma StepIsTidy(w: World, s: State)
    requires Tidy(s) && FreshCalls(w, s) && WholeRound(w, s)
    ensures match Step(w, s)
      case Going(next) => Tidy(next)
      case Ended(end) => TidyEnd(end)
  {
    if OverBudget(w, s).None? && Request(w, s).Some? && w.generate(Request(w, s).value, s.iteration).Some? {
      var response := w.generate(Request(w, s).value, s.iteration).value;
      assert Responds(w, s, response);
      var round := ApplyRound(w, s, response);
      if response.calls == [] {
        ConcludeIsTidy(w, round.state, response);
      } else if !round.Abandoned? {
        RoundIsTidy(w, s, response);
        assert PlainOnly([]) && round.state.messages + [] == round.state.messages;
        if round.Complete? { ConcludeIsTidy(w, round.state, response); }
      }
    }
  }

  /** A disciplined turn works on protocol transcripts throughout, and hands over nothing else. */
  lemma {:induction false} TurnIsTidy(w: World, s: State)
    requires Tidy(s) && Disciplined(w, s)
    ensures TidyEnd(Run(w, s).end)
    ensures forall c | c in Run(w, s).checkpoints :: Tidy(Recover(c))
    decreases w.limits.maxIterations - s.iteration
  {
    StepIsTidy(w, s);
    match Step(w, s)
    case Ended(_) =>
    case Going(next) =>
      StepCounts(w, s);
      assert Tidy(Recover(TakeCheckpoint(next)));
      TurnIsTidy(w, next);
  }

  /**
   A round suspended before its last call leaves a gap: what is handed over is a protocol
   transcript exactly when no call before the last is withheld.
   */
  lemma SuspensionLeavesNoGapIff(w: World, s: State, response: Response)
    requires Tidy(s) && Responds(w, s, response) && OverBudget(w, s).None? && FreshCalls(w, s)
    requires ApplyRound(w, s, response).Complete? && response.calls != []
    ensures Step(w, s).Ended? && HandedOver(Step(w, s).end).Some?
    ensures Protocol(HandedOver(Step(w, s).end).value, {}, None) <==> NoneWithheldBeforeLast(w, response.calls)
  {
    var next := ApplyRound(w, s, response).state;
    RoundIsTidy(w, s, response);
    SuspendedHere(w, TakenIn(s, response), response.calls);
    var more := if response.content == "" then [] else [Assistant(response.content, [])];
    assert PublishedTranscript(next, response.content) == next.messages + more;
    assert PlainOnly(more);
  }

  lemma {:induction false} SuspendedHere(w: World, s: State, calls: seq<ToolCall>)
    ensures Calls(w, s, calls).Complete? ==> Calls(w, s, calls).state.suspended.Some?
    decreases |calls|
  {
    if calls != [] && s.toolCallCount < w.limits.maxToolCalls {
      var counted := s.(toolCallCount := s.toolCallCount + 1);
      match Handle(w, calls[0])
      case Refused(text) => SuspendedHere(w, PushResult(counted, calls[0], text), calls[1..]);
      case Broke(_) =>
      case Ran(record) => SuspendedHere(w, Recorded(counted, calls[0], record), calls[1..]);
    }
  }

  /* ------------------------------------------------------- where a turn can start from */

  lemma LoadedIsProtocol(ms: seq<Message>, max: int)
    requires Protocol(ms, {}, None)
    ensures Protocol(Trimmed(WithoutSystem(ms), max), {}, None)
    ensures |Trimmed(WithoutSystem(ms), max)| <= if max <= 0 then 0 else max
  {
    NoLeadingResult(ms);
    WithoutSystemProtocol(ms, {});
    TrimKeepsProtocol(WithoutSystem(ms), max);
  }

  lemma NoLeadingResult(ms: seq<Message>)
    requires Protocol(ms, {}, None)
    ensures ms != [] ==> !ms[0].Tool?
  {}

  lemma OpenedIsProtocol(instructions: Option<string>, ms: seq<Message>)
    requires Protocol(ms, {}, None)
    ensures Protocol(Opening(instructions) + ms, {}, None)
  {
    NoLeadingResult(ms);
    PlainProtocols(Opening(instructions), {});
    assert {} + Declared(Opening(instructions)) == {};
    ProtocolAppend(Opening(instructions), ms, {});
  }

  lemma CreatedIsTidy(instructions: Option<string>, history: seq<Message>, message: string)
    requires Protocol(history, {}, None)
    ensures Tidy(CreateState(instructions, history, message))
  {
    var before, last := Opening(instructions) + history, [User(message)];
    OpenedIsProtocol(instructions, history);
    PlainProtocols(last, {} + Declared(before));
    ProtocolAppend(before, last, {});
  }

  /** The walk looks at nothing of a result but whose it is. */
  lemma {:induction false} ResultReplaced(ms: seq<Message>, i: nat, m: Message, w: Walk)
    requires i < |ms| && ms[i].Tool? && m.Tool? && m.callId == ms[i].callId
    ensures WalkAll(ms[i := m], w, None) == WalkAll(ms, w, None)
  {
    var changed := ms[i := m];
    if i == 0 {
      assert changed[1..] == ms[1..];
    } else {
      assert changed[1..] == ms[1..][i - 1 := m];
      match WalkStep(ms[0], w, None) {
        case None =>
        case Some(next) => ResultReplaced(ms[1..], i - 1, m, next);
      }
    }
  }

  lemma ResumedIsTidy(instructions: Option<string>, held: seq<Message>, record: ToolRecord, id: string)
    requires Protocol(held, {}, None)
    ensures var r := ExecutorResume.Resumed(instructions, WithoutSystem(held), record, id); r.Some? ==> Tidy(r.value)
  {
    var ms := Opening(instructions) + WithoutSystem(held);
    NoLeadingResult(held);
    WithoutSystemProtocol(held, {});
    OpenedIsProtocol(instructions, WithoutSystem(held));
    var i := ExecutorResume.FindResult(ms, id);
    if i < |ms| {
      var m := Tool(id, ms[i].toolName, record.result.text);
      ResultReplaced(ms, i, m, Start());
      AcceptsIffProtocol(ms, None);
      AcceptsIffProtocol(ms[i := m], None);
    }
  }

  /* --------------------------------------------------------------------- many turns */

  /** What a turn is about: a message, the outcome of an earlier turn's approval, or an earlier turn's checkpoint. */
  datatype Origin =
    | Message(text: string)
    | Approval(turn: nat, record: ToolRecord, callId: string)
    | Snapshot(turn: nat, k: nat)

  /** One turn of a session; one that crashes stores nothing. */
  datatype Turn = Turn(
    surroundings: World, instructions: Option<string>, origin: Origin, maxMessages: int, crashes: bool)

  /** Only a turn resumed from an approval knows of a pending call. */
  function WorldOf(t: Turn): World {
    t.surroundings.(pending := match t.origin case Approval(_, _, id) => Some(id) case _ => None)
  }

  /** How a turn ends, if it starts at all. */
  function RunOf(turns: seq<Turn>, i: nat): Option<Outcome>
    requires i < |turns|
    decreases i, 2
  {
    match StartOf(turns, i) case Some(s) => Some(Run(WorldOf(turns[i]), s)) case None => None
  }

  /** Where a turn starts, if what it goes back to is there. */
  function StartOf(turns: seq<Turn>, i: nat): Option<State>
    requires i < |turns|
    decreases i, 1
  {
    var t := turns[i];
    match t.origin
    case Message(text) =>
      Some(CreateState(t.instructions, Trimmed(WithoutSystem(StoredAfter(turns, i)), t.maxMessages), text))
    case Approval(j, record, callId) =>
      if j >= i || RunOf(turns, j).None? then None
      else
        var end := RunOf(turns, j).value.end;
        if end.Failed? || end.held.None? then None
        else ExecutorResume.Resumed(t.instructions, WithoutSystem(end.held.value.1), record, callId)
    case Snapshot(j, k) =>
      if j >= i || RunOf(turns, j).None? || k >= |RunOf(turns, j).value.checkpoints| then None
      else Some(Recover(RunOf(turns, j).value.checkpoints[k]))
  }

  /** The stored history after the first `n` turns: each replaces it when it hands one over. */
  function StoredAfter(turns: seq<Turn>, n: nat): seq<Message>
    requires n <= |turns|
    decreases n, 0
  {
    if n == 0 then []
    else
      var run := RunOf(turns, n - 1);
      if turns[n - 1].crashes || run.None? || HandedOver(run.value.end).None? then StoredAfter(turns, n - 1)
      else Trimmed(WithoutSystem(HandedOver(run.value.end).value), turns[n - 1].maxMessages)
  }

  ghost predicate DisciplinedTurns(turns: seq<Turn>) {
    forall i :: 0 <= i < |turns| && StartOf(turns, i).Some? ==> Disciplined(WorldOf(turns[i]), StartOf(turns, i).value)
  }

  /** Every turn starts tidily, whether on a message, an approval's outcome or a checkpoint. */
  lemma {:induction false} StartsAreTidy(turns: seq<Turn>, i: nat)
    requires DisciplinedTurns(turns) && i < |turns| && StartOf(turns, i).Some?
    ensures Tidy(StartOf(turns, i).value)
    decreases i, 1
  {
    var t := turns[i];
    match t.origin
    case Message(text) =>
      HistoriesAreProtocol(turns, i);
      LoadedIsProtocol(StoredAfter(turns, i), t.maxMessages);
      CreatedIsTidy(t.instructions, Trimmed(WithoutSystem(StoredAfter(turns, i)), t.maxMessages), text);
    case Approval(j, record, callId) =>
      RunsAreTidy(turns, j);
      ResumedIsTidy(t.instructions, RunOf(turns, j).value.end.held.value.1, record, callId);
    case Snapshot(j, k) =>
      RunsAreTidy(turns, j);
      assert RunOf(turns, j).value.checkpoints[k] in RunOf(turns, j).value.checkpoints;
  }

  lemma {:induction false} RunsAreTidy(turns: seq<Turn>, i: nat)
    requires DisciplinedTurns(turns) && i < |turns| && RunOf(turns, i).Some?
    ensures TidyEnd(RunOf(turns, i).value.end)
    ensures forall c | c in RunOf(turns, i).value.checkpoints :: Tidy(Recover(c))
    decreases i, 2
  {
    StartsAreTidy(turns, i);
    TurnIsTidy(WorldOf(turns[i]), StartOf(turns, i).value);
  }

  /** Over any number of turns, begun, resumed, recovered or lost, every stored history is a protocol transcript. */
  lemma {:induction false} HistoriesAreProtocol(turns: seq<Turn>, n: nat)
    requires DisciplinedTurns(turns) && n <= |turns|
    ensures Protocol(StoredAfter(turns, n), {}, None)
    decreases n, 0
  {
    if n > 0 {
      var last: nat := n - 1;
      HistoriesAreProtocol(turns, last);
      if RunOf(turns, last).Some? {
        RunsAreTidy(turns, last);
        var handed := HandedOver(RunOf(turns, last).value.end);
        if handed.Some? { LoadedIsProtocol(handed.value, turns[last].maxMessages); }
      }
    }
  }

  /** And so is every transcript a turn checkpoints on the way. */
  lemma LoopTranscriptsAreProtocol(turns: seq<Turn>, i: nat, c: Checkpoint)
    requires DisciplinedTurns(turns) && i < |turns| && RunOf(turns, i).Some? && c in RunOf(turns, i).value.checkpoints
    ensures Protocol(c.messages, {}, None)
  {
    RunsAreTidy(turns, i);
    assert Tidy(Recover(c));
  }
}
