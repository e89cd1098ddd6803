/**
 The same loop step by step: an execution state updated in place, and the callbacks that publish
 checkpoints and transcripts.
 */
module ExecutorLoop {
  import opened Base
  import opened JsonText
  import opened Transcript
  import opened Executor

  /** What the turn's callbacks have received. */
  class Publisher {
    var checkpoints: seq<Checkpoint>
    var transcripts: seq<seq<Message>>
    var suspensions: seq<(string, seq<Message>)>

    constructor ()
      ensures checkpoints == [] && transcripts == [] && suspensions == []
    {
      checkpoints, transcripts, suspensions := [], [], [];
    }
  }

  class ExecutionState {
    var messages: seq<Message>
    var toolCalls: seq<ToolRecord>
    var usage: Usage
    var toolCallCount: nat
    var iteration: nat
    var suspended: bool
    var suspendedApprovalId: string
    var repair: seq<Message>
    var repairAttempts: nat
    var structured: Option<Json>

    constructor (s: State)
      ensures Value() == s
    {
      messages, toolCalls, usage := s.messages, s.records, s.usage;
      toolCallCount, iteration := s.toolCallCount, s.iteration;
      suspended := s.suspended.Some?;
      suspendedApprovalId := match s.suspended case Some(id) => id case None => "";
      repair, repairAttempts, structured := s.repair, s.repairAttempts, s.structured;
    }

    function Value(): State
      reads this
    {
      State(messages, toolCalls, usage, toolCallCount, iteration,
        if suspended then Some(suspendedApprovalId) else None, repair, repairAttempts, structured)
    }

    method PushToolMessage(call: ToolCall, text: string)
      modifies this`messages
      ensures Value() == PushResult(old(Value()), call, text)
    {
      messages := messages + [Tool(call.id, call.name, text)];
    }

    /** Takes in a response and carries out its calls; `error` is what is thrown. */
    method ApplyModelRound(w: World, response: Response) returns (finished: bool, error: Option<Error>)
      modifies this
      ensures match ApplyRound(w, old(Value()), response)
        case Abandoned(e) => error == Some(e)
        case Open(next) => error.None? && !finished && Value() == next
        case Complete(next) => error.None? && finished && Value() == next
    {
      ghost var before := Value();
      iteration := iteration + 1;
      usage := Accumulated(usage, response.usage);
      if response.calls == [] { return true, None; }
      if |repair| > 0 {
        messages := messages + repair;
        repair := [];
      }
      assert before.repair == [] ==> before.messages + before.repair == before.messages;
      messages := messages + [Assistant(response.content, response.calls)];
      ghost var taken := Value();
      assert taken == TakenIn(before, response);
      var calls := response.calls;
      for i := 0 to |calls|
        invariant Calls(w, Value(), calls[i..]) == Calls(w, taken, calls)
      {
        ghost var state := Value();
        assert calls[i..][0] == calls[i] && calls[i..][1..] == calls[i + 1..];
        var stopped;
        stopped, error := CarryOut(w, calls[i]);
        assert Calls(w, state, calls[i..]) == if OneCall(w, state, calls[i]).Open?
          then Calls(w, OneCall(w, state, calls[i]).state, calls[i + 1..]) else OneCall(w, state, calls[i]);
        if stopped || error.Some? { return stopped, error; }
      }
      return false, None;
    }

    /** One requested call; `stopped` when it is withheld for approval. */
    method CarryOut(w: World, call: ToolCall) returns (stopped: bool, error: Option<Error>)
      modifies this
      ensures match OneCall(w, old(Value()), call)
        case Abandoned(e) => error == Some(e) && !stopped
        case Open(next) => error.None? && !stopped && Value() == next
        case Complete(next) => error.None? && stopped && Value() == next
    {
      if toolCallCount >= w.limits.maxToolCalls { return false, Some(MaxToolCalls); }
      toolCallCount := toolCallCount + 1;
      match Handle(w, call) {
        case Refused(text) => PushToolMessage(call, text);
        case Broke(text) => return false, Some(ToolFailed(text));
        case Ran(record) =>
          toolCalls := toolCalls + [record];
          PushToolMessage(call, record.result.text);
          if record.result.PendingApproval? {
            suspended, suspendedApprovalId := true, record.result.approvalId;
            return true, None;
          }
      }
      return false, None;
    }

    /** Judges a final answer; queues a repair round when it is turned down. */
    method RejectOutput(w: World, response: Response) returns (rejected: bool, error: Option<Error>)
      modifies this
      ensures match JudgeOutput(w, old(Value()), response)
        case Accepted(done) => !rejected && error.None? && Value() == done
        case Again(next) => rejected && error.None? && Value() == next
        case Refusing(e) => error == Some(e) && Value() == old(Value())
    {
      if w.spec.None? || suspended { return false, None; }
      var spec := w.spec.value;
      match Judge(spec, response) {
        case Conforming(value) =>
          structured := Some(value);
          return false, None;
        case Issues(issues) =>
          if IsRefusal(response) || repairAttempts >= spec.maxRepairAttempts {
            return false, Some(StructuredOutput(response.content, issues, repairAttempts));
          }
          ghost var was := repair;
          repairAttempts := repairAttempts + 1;
          if Extraction.Trim(response.content) != "" { repair := repair + [Assistant(response.content, [])]; }
          repair := repair + [User(spec.prompt(issues))];
          assert repair == was + RepairMessages(spec, response.content, issues);
          return true, None;
      }
    }
  }

  /** What the callbacks hold once a turn has ended. */
  ghost predicate Published(
      p: Publisher, end: End, transcripts: seq<seq<Message>>, suspensions: seq<(string, seq<Message>)>)
    reads p
  {
    match end
    case Answer(_, _, _, _, transcript, held) =>
      && p.transcripts == transcripts + [transcript]
      && p.suspensions == suspensions + (match held case Some(h) => [h] case None => [])
    case Failed(_, kept) =>
      && p.transcripts == transcripts + (match kept case Some(t) => [t] case None => [])
      && p.suspensions == suspensions
  }

  /** `runToCompletion`: ends as `Run` does and publishes the same checkpoints, in the same order. */
  method RunToCompletion(w: World, state: ExecutionState, p: Publisher) returns (end: End)
    modifies state, p
    ensures end == Run(w, old(state.Value())).end
    ensures p.checkpoints == old(p.checkpoints) + Run(w, old(state.Value())).checkpoints
    ensures Published(p, end, old(p.transcripts), old(p.suspensions))
  {
    ghost var all := Run(w, state.Value());
    assert p.checkpoints + all.checkpoints == old(p.checkpoints) + all.checkpoints;
    while true
      invariant Run(w, state.Value()).end == all.end
      invariant p.checkpoints + Run(w, state.Value()).checkpoints == old(p.checkpoints) + all.checkpoints
      invariant p.transcripts == old(p.transcripts) && p.suspensions == old(p.suspensions)
      decreases w.limits.maxIterations - state.iteration
    {
      ghost var before, published := state.Value(), p.checkpoints;
      assert published + [] == published && p.transcripts + [] == p.transcripts && p.suspensions + [] == p.suspensions;
      StepCounts(w, before);
      var over := OverBudget(w, state.Value());
      if over.Some? { return Failed(over.value, None); }
      var request := Request(w, state.Value());
      if request.None? { return Failed(ReducerFailed, None); }
      var response := w.generate(request.value, state.iteration);
      if response.None? { return Failed(ModelFailed, None); }
      var finished, error := state.ApplyModelRound(w, response.value);
      if error.Some? { return Failed(error.value, None); }
      if finished {
        var rejected, refused := state.RejectOutput(w, response.value);
        if refused.Some? {
          p.transcripts := p.transcripts + [PublishedTranscript(state.Value(), response.value.content)];
          return Failed(refused.value, Some(PublishedTranscript(state.Value(), response.value.content)));
        }
        if !rejected {
          end := Finished(state.Value(), response.value.content);
          if state.suspended && state.suspendedApprovalId != "" {
            p.suspensions := p.suspensions + [(state.suspendedApprovalId, state.messages)];
          }
          p.transcripts := p.transcripts + [PublishedTranscript(state.Value(), response.value.content)];
          return;
        }
      }
      RunGoing(w, before, state.Value(), published);
      p.checkpoints := p.checkpoints + [TakeCheckpoint(state.Value())];
    }
  }

  lemma RunGoing(w: World, s: State, next: State, published: seq<Checkpoint>)
    requires Step(w, s) == Going(next)
    ensures Run(w, s).end == Run(w, next).end
    ensures published + Run(w, s).checkpoints == published + [TakeCheckpoint(next)] + Run(w, next).checkpoints
  {
    Assoc(published, [TakeCheckpoint(next)], Run(w, next).checkpoints);
  }
}
