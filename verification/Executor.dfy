/**
 The agent loop (packages/core/src/services/agent-executor.service.ts) as a function: the model,
 the tools and the reducer answer from what they are given, and each round maps one execution
 state to the next, to a final answer, or to a failure.
 */
module Executor {
  import opened Base
  import opened JsonText
  import opened Transcript
  import Extraction

  /* ------------------------------------------------------------------ the surroundings */

  datatype Usage = Usage(input: Option<nat>, output: Option<nat>, total: Option<nat>)

  datatype Response = Response(content: string, calls: seq<ToolCall>, usage: Option<Usage>, refusal: Option<string>)

  datatype ToolResult =
    | Result(text: string)
    | PendingApproval(text: string, approvalId: string, reason: string)
    | Threw(text: string, framework: bool)

  datatype Checked = Good(args: Json) | Bad(text: string)

  datatype ToolSpec = ToolSpec(name: string, check: Json -> Checked, execute: (Json, string) -> ToolResult)

  datatype Reduction = Untouched | Changed(messages: seq<Message>) | Broken

  datatype Verdict = Conforming(value: Json) | Issues(issues: seq<string>)

  /** The turn's output schema: how an answer is judged and how often it may be repaired. */
  datatype Spec = Spec(maxRepairAttempts: nat, judge: string -> Verdict, prompt: seq<string> -> string)

  datatype Limits = Limits(maxIterations: int, maxToolCalls: int, maxTotalTokens: Option<int>)

  datatype World = World(
    generate: (seq<Message>, nat) -> Option<Response>,
    reduce: Option<(seq<Message>, nat, Option<string>) -> Reduction>,
    tools: seq<ToolSpec>, unknownTool: string -> string,
    spec: Option<Spec>, instruction: Option<string>,
    limits: Limits, rethrow: bool, pending: Option<string>)

  /* ------------------------------------------------------------------------- the state */

  datatype ToolRecord = ToolRecord(toolName: string, args: Json, result: ToolResult)

  datatype State = State(
    messages: seq<Message>, records: seq<ToolRecord>, usage: Usage, toolCallCount: nat, iteration: nat,
    suspended: Option<string>, repair: seq<Message>, repairAttempts: nat, structured: Option<Json>)

  datatype Error =
    | MaxIterations | MaxTotalTokens | MaxToolCalls
    | ReducerFailed | ModelFailed | ToolFailed(text: string)
    | StructuredOutput(content: string, issues: seq<string>, attempts: nat)

  /** How a turn ends, with the transcript it hands over and, if suspended, the approval's checkpoint. */
  datatype End =
    | Answer(output: string, records: seq<ToolRecord>, usage: Usage, structured: Option<Json>,
             transcript: seq<Message>, held: Option<(string, seq<Message>)>)
    | Failed(error: Error, kept: Option<seq<Message>>)

  datatype Progress = Going(state: State) | Ended(end: End)

  function NoUsage(): Usage { Usage(None, None, None) }

  function FreshState(messages: seq<Message>): State {
    State(messages, [], NoUsage(), 0, 0, None, [], 0, None)
  }

  /** `createState`. */
  function CreateState(instructions: Option<string>, history: seq<Message>, message: string): State {
    FreshState(Opening(instructions) + history + [User(message)])
  }

  function Opening(instructions: Option<string>): seq<Message> {
    match instructions case Some(t) => (if t == "" then [] else [System(t)]) case None => []
  }

  /* ----------------------------------------------------------------------- the request */

  /** What the reducer makes of the transcript, checked before it is sent. */
  function Project(w: World, s: State): Option<seq<Message>> {
    match w.reduce
    case None => Some(s.messages)
    case Some(reduce) =>
      match reduce(s.messages, s.iteration, w.pending)
      case Untouched => Some(s.messages)
      case Changed(ms) => if Accepts(ms, w.pending) then Some(ms) else None
      case Broken => None
  }

  function WithSystemInstruction(ms: seq<Message>, instruction: string): seq<Message> {
    if ms != [] && ms[0].System? then [System(ms[0].text + "\n\n" + instruction)] + ms[1..]
    else [System(instruction)] + ms
  }

  function Request(w: World, s: State): Option<seq<Message>> {
    match Project(w, s)
    case None => None
    case Some(ms) =>
      Some(match w.instruction case None => ms + s.repair case Some(t) => WithSystemInstruction(ms + s.repair, t))
  }

  /* ------------------------------------------------------------------------- the round */

  function Add(current: Option<nat>, next: Option<nat>): Option<nat> {
    match next case None => current case Some(n) => Some((match current case Some(c) => c case None => 0) + n)
  }

  function Accumulated(usage: Usage, more: Option<Usage>): Usage {
    match more
    case None => usage
    case Some(u) =>
      Usage(Add(usage.input, u.input), Add(usage.output, u.output),
        Add(usage.total, if u.total.Some? then u.total else Add(u.input, u.output)))
  }

  datatype Handled = Refused(text: string) | Ran(record: ToolRecord) | Broke(text: string)

  function FindTool(tools: seq<ToolSpec>, name: string): Option<ToolSpec> {
    if tools == [] then None else if tools[0].name == name then Some(tools[0]) else FindTool(tools[1..], name)
  }

  /** What comes of one requested call. */
  function Handle(w: World, call: ToolCall): Handled {
    match FindTool(w.tools, call.name)
    case None => Refused(w.unknownTool(call.name))
    case Some(tool) =>
      match tool.check(call.args)
      case Bad(text) => Refused(text)
      case Good(args) =>
        var result := tool.execute(args, call.id);
        if result.Threw? && (result.framework || w.rethrow) then Broke(result.text)
        else Ran(ToolRecord(tool.name, args, result))
  }

  function PushResult(s: State, call: ToolCall, text: string): State {
    s.(messages := s.messages + [Tool(call.id, call.name, text)])
  }

  function Recorded(s: State, call: ToolCall, record: ToolRecord): State {
    PushResult(s, call, record.result.text).(records := s.records + [record])
  }

  datatype Round = Open(state: State) | Complete(state: State) | Abandoned(error: Error)

  /** One requested call: a withheld one completes the round. */
  function OneCall(w: World, s: State, call: ToolCall): Round {
    if s.toolCallCount >= w.limits.maxToolCalls then Abandoned(MaxToolCalls)
    else
      var counted := s.(toolCallCount := s.toolCallCount + 1);
      match Handle(w, call)
      case Refused(text) => Open(PushResult(counted, call, text))
      case Broke(text) => Abandoned(ToolFailed(text))
      case Ran(record) =>
        var next := Recorded(counted, call, record);
        match record.result
        case PendingApproval(_, id, _) => Complete(next.(suspended := Some(id)))
        case _ => Open(next)
  }

  /** The requested calls, in order, up to one that is withheld for approval. */
  function Calls(w: World, s: State, calls: seq<ToolCall>): Round
    decreases |calls|
  {
    if calls == [] then Open(s)
    else
      match OneCall(w, s, calls[0])
      case Open(next) => Calls(w, next, calls[1..])
      case Complete(next) => Complete(next)
      case Abandoned(error) => Abandoned(error)
  }

  /** Carrying out the call would withhold it for approval. */
  predicate Withheld(w: World, call: ToolCall) {
    Handle(w, call).Ran? && Handle(w, call).record.result.PendingApproval?
  }

  predicate NoneWithheldBeforeLast(w: World, calls: seq<ToolCall>) {
    forall i :: 0 <= i < |calls| - 1 ==> !Withheld(w, calls[i])
  }

  /** A round that completes has answered every call exactly when no call before the last is withheld. */
  lemma {:induction false} WholeIff(w: World, s: State, calls: seq<ToolCall>)
    requires Calls(w, s, calls).Complete?
    ensures |s.messages| < |Calls(w, s, calls).state.messages| <= |s.messages| + |calls|
    ensures |Calls(w, s, calls).state.messages| == |s.messages| + |calls| <==> NoneWithheldBeforeLast(w, calls)
    decreases |calls|
  {
    var counted, rest := s.(toolCallCount := s.toolCallCount + 1), calls[1..];
    if !Withheld(w, calls[0]) {
      match Handle(w, calls[0]) {
        case Refused(text) => WholeIff(w, PushResult(counted, calls[0], text), rest);
        case Ran(record) => WholeIff(w, Recorded(counted, calls[0], record), rest);
      }
      assert forall i :: 0 < i < |calls| - 1 ==> calls[i] == rest[i - 1];
      assert forall i :: 0 <= i < |rest| - 1 ==> rest[i] == calls[i + 1];
    }
  }

  /** The state once a response is taken in and its request for tools is on the transcript. */
  function TakenIn(s: State, response: Response): State {
    var counted := s.(iteration := s.iteration + 1, usage := Accumulated(s.usage, response.usage));
    if response.calls == [] then counted
    else counted.(messages := s.messages + s.repair + [Assistant(response.content, response.calls)], repair := [])
  }

  /** `applyModelRound`. */
  function ApplyRound(w: World, s: State, response: Response): Round {
    if response.calls == [] then Complete(TakenIn(s, response)) else Calls(w, TakenIn(s, response), response.calls)
  }

  /* ------------------------------------------------------------------- the final answer */

  datatype Judged = Accepted(state: State) | Again(state: State) | Refusing(error: Error)

  function Judge(spec: Spec, response: Response): Verdict {
    match response.refusal
    case Some(why) =>
      if why != "" then Issues(["$: the model refused to answer: " + why]) else spec.judge(response.content)
    case None => spec.judge(response.content)
  }

  function IsRefusal(response: Response): bool { response.refusal.Some? && response.refusal.value != "" }

  function RepairMessages(spec: Spec, content: string, issues: seq<string>): seq<Message> {
    (if Extraction.Trim(content) != "" then [Assistant(content, [])] else []) + [User(spec.prompt(issues))]
  }

  /** `rejectOutput`. */
  function JudgeOutput(w: World, s: State, response: Response): Judged {
    if w.spec.None? || s.suspended.Some? then Accepted(s)
    else
      var spec := w.spec.value;
      match Judge(spec, response)
      case Conforming(value) => Accepted(s.(structured := Some(value)))
      case Issues(issues) =>
        if IsRefusal(response) || s.repairAttempts >= spec.maxRepairAttempts
        then Refusing(StructuredOutput(response.content, issues, s.repairAttempts))
        else Again(s.(repairAttempts := s.repairAttempts + 1,
          repair := s.repair + RepairMessages(spec, response.content, issues)))
  }

  /** The transcript handed over: the answer is added unless it is empty. */
  function PublishedTranscript(s: State, content: string): seq<Message> {
    if content == "" then s.messages else s.messages + [Assistant(content, [])]
  }

  /** `resolveOutput`: a suspended turn without text says what it waits for. */
  function ResolvedOutput(s: State, content: string): string {
    if s.suspended.None? || content != "" then content
    else if s.records == [] then content
    else
      match s.records[|s.records| - 1].result
      case PendingApproval(_, id, reason) =>
        "Tool \"" + s.records[|s.records| - 1].toolName + "\" requires approval (" + id + "): " + reason
      case _ => content
  }

  function HeldCheckpoint(s: State): Option<(string, seq<Message>)> {
    match s.suspended
    case Some(id) => if id == "" then None else Some((id, s.messages))
    case None => None
  }

  function Finished(s: State, content: string): End {
    Answer(
      ResolvedOutput(s, content), s.records, s.usage, s.structured, PublishedTranscript(s, content), HeldCheckpoint(s))
  }

  /* --------------------------------------------------------------------------- the loop */

  function OverBudget(w: World, s: State): Option<Error> {
    if s.iteration >= w.limits.maxIterations then Some(MaxIterations)
    else if w.limits.maxTotalTokens.Some?
            && (match s.usage.total case Some(n) => n case None => 0) >= w.limits.maxTotalTokens.value
    then Some(MaxTotalTokens)
    else None
  }

  function Conclude(w: World, s: State, response: Response): Progress {
    match JudgeOutput(w, s, response)
    case Accepted(done) => Ended(Finished(done, response.content))
    case Again(next) => Going(next)
    case Refusing(error) => Ended(Failed(error, Some(PublishedTranscript(s, response.content))))
  }

  /** One pass through the loop. */
  function Step(w: World, s: State): Progress {
    match OverBudget(w, s)
    case Some(error) => Ended(Failed(error, None))
    case None =>
      match Request(w, s)
      case None => Ended(Failed(ReducerFailed, None))
      case Some(request) =>
        match w.generate(request, s.iteration)
        case None => Ended(Failed(ModelFailed, None))
        case Some(response) =>
          match ApplyRound(w, s, response)
          case Abandoned(error) => Ended(Failed(error, None))
          case Open(next) => Going(next)
          case Complete(next) => Conclude(w, next, response)
  }

  lemma {:induction false} CallsKeepIteration(w: World, s: State, calls: seq<ToolCall>)
    ensures !Calls(w, s, calls).Abandoned? ==> Calls(w, s, calls).state.iteration == s.iteration
    decreases |calls|
  {
    if calls != [] && s.toolCallCount < w.limits.maxToolCalls {
      var counted := s.(toolCallCount := s.toolCallCount + 1);
      match Handle(w, calls[0])
      case Refused(text) => CallsKeepIteration(w, PushResult(counted, calls[0], text), calls[1..]);
      case Ran(record) => CallsKeepIteration(w, Recorded(counted, calls[0], record), calls[1..]);
      case Broke(_) =>
    }
  }

  /** Every pass counts, so the loop ends. */
  lemma StepCounts(w: World, s: State)
    ensures Step(w, s).Going? ==> s.iteration < w.limits.maxIterations && Step(w, s).state.iteration == s.iteration + 1
  {
    if OverBudget(w, s).None? && Request(w, s).Some? && w.generate(Request(w, s).value, s.iteration).Some? {
      var response := w.generate(Request(w, s).value, s.iteration).value;
      CallsKeepIteration(w, TakenIn(s, response), response.calls);
    }
  }

  /** What survives a crash. */
  datatype Checkpoint = Checkpoint(
    iteration: nat, messages: seq<Message>, usage: Usage, toolCallCount: nat,
    repairs: Option<(nat, seq<Message>)>)

  function TakeCheckpoint(s: State): Checkpoint {
    Checkpoint(s.iteration, s.messages, s.usage, s.toolCallCount,
      if s.repairAttempts > 0 then Some((s.repairAttempts, s.repair)) else None)
  }

  /** `createCheckpointState`. */
  function Recover(c: Checkpoint): State {
    State(c.messages, [], c.usage, c.toolCallCount, c.iteration, None,
      match c.repairs { case Some(r) => r.1 case None => [] },
      match c.repairs { case Some(r) => r.0 case None => 0 }, None)
  }

  datatype Outcome = Outcome(end: End, checkpoints: seq<Checkpoint>)

  /** The whole turn from a state on: how it ends, and the checkpoints published on the way. */
  function Run(w: World, s: State): Outcome
    decreases w.limits.maxIterations - s.iteration
  {
    match Step(w, s)
    case Ended(end) => Outcome(end, [])
    case Going(next) =>
      StepCounts(w, s);
      var rest := Run(w, next);
      Outcome(rest.end, [TakeCheckpoint(next)] + rest.checkpoints)
  }
}
