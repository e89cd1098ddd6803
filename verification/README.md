# A verified model of the governed agent runtime

This project models, in Dafny, the small protocols and transformations the runtime's guarantees rest on, and proves
what each is for: the settlement of approvals under concurrency, the agent loop with crash recovery and suspension, the
JSON Schema engine and the schema wrapping of the OpenAI adapter, the tamper-evident audit chain, redaction over cyclic
graphs, and the machines that deal in time and order.

Check it with `dafny verify dfyconfig.toml`.

## How it is laid out

| files | what they hold |
|---|---|
| `Base`, `JsonText`, `Canonical` | JSON values, printing and reading them, the canonical form and structural equality |
| `Extraction`, `Balance` | the bracket scanner that finds a JSON answer in prose, and what it finds, as a grammar |
| `SchemaConformance`, `SchemaValidator`, `SchemaLimits` | conformance as a boolean function, the validator with its shared issue list, and what its limits change |
| `SchemaWrap`, `SchemaWrapMeaning`, `SchemaWrapCarried`, `SchemaWrapTheorem`, `SchemaWrapAnswer`, `SchemaWrapNames` | the wrapping of a schema, what it does to definitions and references, which references it carries, evaluation in step, the final theorems, and schemas it gets wrong |
| `Approval`, `ApprovalStore`, `ApprovalConservation`, `ApprovalQuorum`, `ApprovalVersions` | settlement as a step relation, the store, and the invariants over every interleaving |
| `Transcript`, `Reducer`, `SessionHistory` | the tool protocol, its validator, the folding of old groups, trimming |
| `Executor`, `ExecutorLoop`, `ExecutorRecovery`, `ExecutorPending`, `ExecutorSession`, `ExecutorResume` | the loop as a function and in place, recovery, what a recovered turn no longer knows, sessions of many turns, suspension and resumption |
| `Redaction`, `RedactionOverrides` | redaction over cyclic graphs, and the overrides it does not apply |
| `HashChain`, `RateLimit`, `WriteQueue`, `CircuitBreaker`, `PolicyChain` | one component each |

Values (messages, records, schemas, states of a run) are datatypes with functions and lemmas. What the program updates in
place (the issue list, the execution state, the copies made by redaction, the stores, limiters, queues, breaker and sink)
is a class whose methods are proved against those functions. Asynchronous code is a state machine: one step is what runs
between two awaits, and every theorem about it is about every interleaving.

The host supplies, as parameters: how numbers are written (`Numerals`, assumed to read back what it writes), regular
expressions, percent decoding and the multiple-of test (`Rules`), the hash (assumed injective where a theorem says so),
the model, the tools, the reducer and the authorizer (functions of what they receive), and the clock (nondecreasing).

## What the proofs found

Where a promise fails, the code is modelled as it is, a lemma gives the failing input, and another says exactly when the
promise holds.

- Handing out an approval id before the checkpoint is attached, as the streaming loop does, lets the attaching save
  undo a settlement; the tool then runs twice (`ApprovalVersions.StreamedRunsTwice`). A whole run conserves the record
  exactly when no such save finds it gone (`ApprovalConservation.ConservedIffUndisturbed`), which the other order rules
  out; over all runs of any deployment in which someone can approve, the order alone decides
  (`ApprovalVersions.AtMostOnceIffNotStreamed`).
- An expired dual-control approval is claimed without comparing versions. A store that replaces records in place can so
  have old signatures counted for new terms (`ApprovalVersions.ReplacedTermsRunOnOldSignatures`). A run completed by its
  last signature is safe from that (`ApprovalQuorum.Quorum`); where such signatures can be given, all runs are exactly
  when records are never replaced (`ApprovalVersions.CurrentIffImmutable`).
- Wrapping moves any reference that does not literally start with `#/$defs/` or `#/definitions/`. One that reaches the
  definitions by another spelling, or names them as a whole, is lost (`SchemaWrapCarried.MovedReferenceResolves` is the
  exact condition), and with it what the schema accepts (`SchemaWrapNames.LostReference`).
- The rewriting reads the definitions as a schema, so a definition named like a data keyword (`default`, `const`, `enum`,
  `examples`) or like a map of schemas (`properties`, `$defs`, ...) is misread, and a schema that refers to its root
  through one turns away what it should accept once wrapped (`SchemaWrapNames.MisreadDefinition`). A definition comes out
  right exactly when it is read alike both ways (`SchemaWrapMeaning.ArrivesIffReadAlike`), and any definition does under
  exactly the other names (`SchemaWrapMeaning.SafeNameIff`).
- For any one reference, `SchemaWrapCarried.CarriedIff` says exactly when the wrapper carries it along; beside the two
  cases above it fails for a dangling reference to the very key the old root is put under, and for definitions that are
  no record. Wrapping preserves meaning whenever the references that evaluation can meet are carried
  (`SchemaWrapAnswer.WrappingPreservesMeaning`).
- A property is not overridden when its record hangs off a key of a map: keys are kept by reference, and the search
  through them does not ask for overrides (`RedactionOverrides.OverrideMissedInKey`). Overrides are complete exactly
  when there is no such record (`RedactionOverrides.OverridesMissedIff`).
- `maxIssues` of 0 accepts every value (`SchemaValidator.Validate`).
- A round leaves a gap in the transcript exactly when a call before its last is withheld
  (`ExecutorSession.SuspensionLeavesNoGapIff`).
- A resumed turn tells the reducer which group was pending, so with nothing retained its request differs from the
  uninterrupted one (`ExecutorResume.SameRequestIffRetained`).
- A checkpoint of a resumed turn does not carry that id, so a recovered turn no longer spares the group: with one group
  retained, as by default, it asks differently one tool round later (`Reducer.PendingMattersNextRound`). Its requests are
  those of the turn that went on exactly when the group is retained at every pass that is left
  (`ExecutorPending.SameRequestsIffIdle`, `ExecutorPending.IdleIffNeverOutgrown`).
- The in-process limiter accepts limits of 0 and less, which no waiting satisfies (`RateLimit.ZeroLimitNeverAdmits`), and
  two of its instances with different limits share a history, so the stricter one's hint can be too short
  (`RateLimit.SharedHistoryHintTooShort`). `RateLimit.HintIsEnoughIff` says when a hint is enough.
- Any late completion clears the breaker's probe flag, so a second probe can start while the first is out
  (`CircuitBreaker.LateSuccessReleasesSecondProbe`). The flag is up exactly from a probe to the next completion
  (`CircuitBreaker.ProbeFlagIff`), which decides what half-open lets through (`CircuitBreaker.OneProbeAtATime`).

## Model

| member | source | states |
|---|---|---|
| `ApprovalConservation.Conservation` | packages/core/src/services/approval.service.ts:192-524 | over every interleaving of any number of calls, cancellations and crashes, the record is in exactly one place: stored, held by exactly one call, or consumed, when ids wait for the checkpoint or no save of it finds the record gone |
| `ApprovalConservation.AtMostOnce` | packages/core/src/services/approval.service.ts:397-491 | the withheld tool is handed to the runner at most once, and at most one of expired, settled and failed is recorded |
| `ApprovalConservation.NeverReappears` | packages/core/src/services/approval.service.ts:397-524 | once consumed (settled, expired or lost) the record is never stored again and nothing more runs |
| `ApprovalConservation.ConservedIffUndisturbed` | packages/core/src/services/agent-executor.service.ts:646-668 | a whole run conserves the record exactly when no save of the checkpoint finds it gone |
| `ApprovalConservation.StepKeepsIff` | packages/core/src/services/approval.service.ts:192-524 | each single step of any participant keeps conservation, saving the checkpoint of a record that is gone excepted |
| `ApprovalQuorum.Quorum` | packages/core/src/services/approval.service.ts:260-383 | a run that needs several approvers holds that many signatures, from pairwise different users, each traced to an authorization for the version it names; when the last signature completed it, all are for the record as it stood |
| `ApprovalQuorum.GovernedSettlement` | packages/core/src/services/approval.service.ts:199-235 | under governance the settling caller passed the checks, and one that carries a fingerprint passed them for a record with that of the one that ran |
| `ApprovalQuorum.RestoreKeeps` | packages/core/src/services/approval.service.ts:349-377 | a settlement given up after the claim puts back the record as it was taken but for signatures: exactly the others', those for another version aside if that was the reason; the signer can sign again |
| `ApprovalQuorum.StepKeeps` | packages/core/src/services/approval.service.ts:192-524 | each step keeps what the quorum theorem needs, even when the store replaces terms |
| `ApprovalVersions.VersionMeansTerms` | packages/core/src/services/approval.service.ts:571-579 | with an injective digest, two records have the same version exactly when what is decided about is equal up to key order |
| `ApprovalVersions.FingerprintMeansRecord` | packages/core/src/services/approval.service.ts:555-569 | two records have the same fingerprint exactly when they are equal up to key order, signatures aside |
| `ApprovalVersions.VersionFixesThreshold` | packages/core/src/interfaces/approval.interface.ts:106-116 | records of the same version ask for the same number of approvers |
| `ApprovalVersions.QuorumOnImmutableRecords` | packages/core/src/interfaces/approval.interface.ts:242-247 | when saved records are not replaced, every signature on a record that ran was given for that record |
| `ApprovalVersions.SignersAreNotTheRequester` | packages/core/src/services/approval.service.ts:82-100 | with separation of duties enforced, on records that are not replaced, each signature on one that ran was given by an identity let through for the version it names, and that identity is in no conflict with the requester |
| `ApprovalVersions.NoSignatureOfTheRequester` | packages/core/src/services/approval.service.ts:70-100 | with tenants isolated too, and a requester of no tenant or the record's, no signature carries the requester's user id |
| `ApprovalVersions.SoleSettlerWasAuthorized` | packages/core/src/services/approval.service.ts:205-236 | under governance, on records that are not replaced, whoever settles without a second signature passed the checks for a record with the fingerprint of the one that ran |
| `ApprovalVersions.StreamedRunsTwice` | packages/core/src/services/agent-executor.service.ts:643-668 | with ids handed out before the checkpoint is attached there is, under any policy that lets someone approve, a run of the system in which the tool runs twice |
| `ApprovalVersions.AtMostOnceIffNotStreamed` | packages/core/src/services/agent-executor.service.ts:548-557 | over all runs, under any policy that lets someone approve, the tool runs at most once exactly when ids wait for the checkpoint |
| `ApprovalVersions.ReplacedTermsRunOnOldSignatures` | packages/core/src/services/approval.service.ts:287-294 | under any policy, thresholds and number of signers that let enough people sign, a store that replaces records has a run in which replaced terms run on signatures given for the old ones |
| `ApprovalVersions.CurrentIffImmutable` | packages/core/src/interfaces/approval.interface.ts:242-247 | where such signatures can be given: over all runs, signatures are for the record that ran exactly when the store never replaces one |
| `ApprovalStore.InMemoryApprovalStore.Claim` | packages/core/src/stores/in-memory/in-memory-approval.store.ts:42-47 | answers what was stored and leaves nothing, other ids untouched |
| `ApprovalStore.InMemoryApprovalStore.AddSignature` | packages/core/src/stores/in-memory/in-memory-approval.store.ts:53-78 | answers and leaves what the atomic step of the protocol does |
| `ApprovalStore.InMemoryApprovalStore.Save` | packages/core/src/stores/in-memory/in-memory-approval.store.ts:23-25 | stores the record under its id and touches no other |
| `ApprovalStore.SignatureContract` | packages/core/src/interfaces/approval.interface.ts:251-271 | pending keeps the record below its threshold with the signature in it, complete removes it at or above, duplicate changes nothing, and users stay distinct |
| `Executor.StepCounts` | packages/core/src/services/agent-executor.service.ts:502-568 | a pass of the loop that goes on was within the iteration limit and counts one iteration, so the loop ends |
| `Executor.WholeIff` | packages/core/src/services/agent-executor.service.ts:963-1085 | a round that completes has answered every call exactly when no call before the last is withheld |
| `ExecutorLoop.RunToCompletion` | packages/core/src/services/agent-executor.service.ts:489-572 | the loop over the state updated in place ends as the function says, with its checkpoints, transcript and suspension published once and in order |
| `ExecutorLoop.ExecutionState.ApplyModelRound` | packages/core/src/services/agent-executor.service.ts:932-1088 | takes in a response and leaves the state, completion or error of the round function |
| `ExecutorLoop.ExecutionState.CarryOut` | packages/core/src/services/agent-executor.service.ts:963-1085 | one requested call: counted, refused, recorded, withheld or fatal |
| `ExecutorLoop.ExecutionState.RejectOutput` | packages/core/src/services/agent-executor.service.ts:1273-1309 | accepts, queues a repair round or refuses as the judging function says |
| `ExecutorRecovery.RecoveryResumes` | packages/core/src/services/agent-executor.service.ts:1207-1251 | a turn picked up from any checkpoint, not knowing of a pending approval it does not depend on, ends with the same answer, transcript, usage or failure, with exactly the tool records made after the checkpoint, and publishes exactly the remaining checkpoints |
| `ExecutorRecovery.RecoveriesResume` | packages/core/src/services/agent-runner.service.ts:1132-1186 | the same after any number of crashes, each recovered from any checkpoint of the run before |
| `ExecutorRecovery.CheckpointsWithinLimits` | packages/core/src/services/agent-executor.service.ts:824-841 | iterations, tool calls and repairs of every checkpoint are within the limits |
| `ExecutorRecovery.PassesBounded` | packages/core/src/services/agent-executor.service.ts:830-833 | from any state a turn makes no more passes than its limit leaves |
| `ExecutorRecovery.StepAfter` | packages/core/src/services/agent-executor.service.ts:1207-1227 | a pass depends on nothing recorded before it, which is what lets recovery drop the records |
| `ExecutorRecovery.NothingPending` | packages/core/src/services/agent-executor.service.ts:352-356 | a turn that was not resumed, or has no reducer, has no pending approval to forget |
| `ExecutorPending.SameRequestsIffIdle` | packages/core/src/services/agent-executor.service.ts:329-359 | a turn that forgets its pending approval sends the same requests exactly when the reducer would answer every one of its transcripts alike without it |
| `ExecutorPending.ForgetsIff` | packages/core/src/reducers/bounded-tool-history.reducer.ts:90-106 | what the bounded reducer makes of a transcript stays the same without the id exactly when the group that declares it is not among those old enough to fold |
| `ExecutorPending.IdleIffNeverOutgrown` | packages/core/src/services/agent-executor.service.ts:1207-1227 | a resumed turn with the bounded reducer can be recovered unnoticed exactly when the group of its approval is retained at every pass left |
| `ExecutorSession.TurnIsTidy` | packages/core/src/services/agent-executor.service.ts:932-1088 | with fresh call ids and whole rounds, every checkpointed transcript, every one handed over and every one attached to an approval is a protocol transcript |
| `ExecutorSession.HistoriesAreProtocol` | packages/core/src/services/agent-runner.service.ts:478-587 | over any number of turns, begun with a message, resumed from an approval, recovered from a checkpoint or lost to a crash, every stored history is a protocol transcript |
| `ExecutorSession.LoopTranscriptsAreProtocol` | packages/core/src/services/agent-executor.service.ts:566-568 | and so is every transcript such a turn checkpoints |
| `ExecutorSession.LoadedIsProtocol` | packages/core/src/services/agent-runner.service.ts:404-421 | loading keeps the protocol and the bound |
| `ExecutorSession.SuspensionLeavesNoGapIff` | packages/core/src/services/agent-executor.service.ts:1070-1081 | a suspended round hands over a protocol transcript exactly when no call before the last is withheld |
| `ExecutorSession.ProtocolAppend` | packages/core/src/reducers/validate-reduction.ts:43-57 | a protocol transcript goes on as one exactly when what follows is one, given the ids used |
| `ExecutorResume.CreateResumedState` | packages/core/src/services/agent-executor.service.ts:725-774 | rebuilds the state from the checkpoint: the first result of the withheld call is replaced by the outcome, or nothing if it is missing |
| `ExecutorResume.SuspensionIsTransparent` | packages/core/src/services/agent-executor.service.ts:725-774 | with the withheld call last of its round, the resumed turn starts on the messages of the turn that was answered at once, and without a reducer sends the same request |
| `ExecutorResume.SameRequestIffRetained` | packages/core/src/services/agent-executor.service.ts:352-356 | with the bounded reducer the resumed request is the uninterrupted one exactly when at least one group is retained |
| `Transcript.ValidateReduction` | packages/core/src/reducers/validate-reduction.ts:83-164 | the sequential walk accepts what the walk function accepts |
| `Transcript.AcceptsIffProtocol` | packages/core/src/reducers/validate-reduction.ts:43-57 | the validator accepts exactly the transcripts of the group grammar |
| `Reducer.FindToolGroups` | packages/core/src/reducers/bounded-tool-history.reducer.ts:132-153 | finds every group, in order, with its extent and ids |
| `Reducer.Reduce` | packages/core/src/reducers/bounded-tool-history.reducer.ts:79-126 | the index loops compute the folding by pieces |
| `Reducer.ReducedIsAccepted` | packages/core/src/reducers/bounded-tool-history.reducer.ts:79-126 | whatever the validator accepts, it accepts once reduced, for every retention |
| `Reducer.ReductionKeeps` | packages/core/src/reducers/bounded-tool-history.reducer.ts:40-54 | only whole groups are replaced, never the pending one nor one of the last retained; everything else stays, in order |
| `Reducer.ReducedIsBounded` | packages/core/src/reducers/bounded-tool-history.reducer.ts:86-108 | at most one group more than retained is left, the pending one |
| `Reducer.ReducingIsIdempotent` | packages/core/src/reducers/bounded-tool-history.reducer.ts:79-126 | reducing twice is reducing once, for every transcript |
| `Reducer.PendingMattersIff` | packages/core/src/reducers/bounded-tool-history.reducer.ts:90-106 | being told of the pending call changes the answer exactly when its group is among the first, old enough to fold |
| `Reducer.PendingMattersNextRound` | packages/core/src/reducers/bounded-tool-history.reducer.ts:66-77 | with one group retained, as by default, it does one tool group later |
| `SessionHistory.TrimHistory` | packages/core/src/utils/session-history.ts:12-24 | computes the trimmed suffix |
| `SessionHistory.TrimmedIsLongest` | packages/core/src/utils/session-history.ts:4-11 | it is the longest suffix that is short enough and opens cleanly |
| `SessionHistory.TrimKeepsProtocol` | packages/core/src/utils/session-history.ts:4-24 | trimming a protocol transcript leaves a bounded one and splits no group |
| `SessionHistory.WithoutSystemProtocol` | packages/core/src/utils/session-history.ts:33-35 | dropping system messages keeps the protocol |
| `JsonText.ParseUndoesPrint` | packages/model-openai/src/openai-model.adapter.ts:358-360 | reading a printed value gives that value back |
| `Canonical.SameTextIffEqual` | packages/core/src/audit/hash-chain-audit.sink.ts:217-284 | two values serialize to the same text exactly when they are equal up to the order of keys |
| `Canonical.ParseUndoesSerialize` | packages/core/src/audit/hash-chain-audit.sink.ts:232-284 | canonical text reads back as the value with its keys sorted |
| `Canonical.SerializeClean` | packages/core/src/audit/hash-chain-audit.sink.ts:209-215 | canonical text holds no raw control character, so the separator of a link is free |
| `Extraction.BalancedAt` | packages/core/src/utils/structured-output.ts:85-104 | the loop with its index, stack and string flag finds the span the scan defines |
| `Balance.SpanIffBalanced` | packages/core/src/utils/structured-output.ts:81-104 | from an opening bracket, a span is found exactly when it is balanced: matching brackets around plain text, strings with their escapes, and balanced spans |
| `Balance.SpanIsShortest` | packages/core/src/utils/structured-output.ts:81-104 | the span found is the only balanced one from there, so the shortest, and none is missed |
| `Extraction.ParseJsonAnswer` | packages/core/src/utils/structured-output.ts:110-136 | answers the first candidate that parses |
| `Extraction.AnswerUndoesPrint` | packages/core/src/utils/structured-output.ts:106-136 | prose, a printed object or array, and any trailing text without a code fence parse to that value |
| `SchemaValidator.Validate` | packages/core/src/utils/json-schema.validator.ts:155-358 | with room for an issue the verdict is conformance; without room everything is valid |
| `SchemaValidator.Validation.Walk` | packages/core/src/utils/json-schema.validator.ts:181-353 | however the list looked before, it only grows, never past its bound, and stays as it was exactly when the value conforms |
| `SchemaValidator.Validation.Probe` | packages/core/src/utils/json-schema.validator.ts:168-174 | leaves the list as it was and finds nothing exactly when the value conforms |
| `SchemaValidator.Validation.WalkCombinators` | packages/core/src/utils/json-schema.validator.ts:330-353 | the four combinators decide as in section 10.2.1 of JSON Schema Core 2020-12 |
| `SchemaLimits.Run.Enough` | packages/core/src/utils/json-schema.validator.ts:181-210 | an evaluation that stays within its depth and reference chain decides the same with any higher allowance |
| `SchemaWrap.WrapSchema` | packages/model-openai/src/openai-model.adapter.ts:263-297 | computes the wrapper under a key no definition has |
| `SchemaWrap.UniqueKey` | packages/model-openai/src/openai-model.adapter.ts:322-327 | finds the first candidate key that is free, and always finds one |
| `SchemaWrap.RefMover.RewriteRefs` | packages/model-openai/src/openai-model.adapter.ts:308-320 | rewrites every reference that is one, no data, and notes whether any moved |
| `SchemaWrap.DescendRewritten` | packages/model-openai/src/openai-model.adapter.ts:299-320 | rewriting commutes with following a path |
| `SchemaWrapMeaning.ArrivesIffReadAlike` | packages/model-openai/src/openai-model.adapter.ts:308-320 | a definition comes out of the rewriting of the definitions as a schema does exactly when nothing in it that moves is taken for data, for a name, or for a reference it is not |
| `SchemaWrapMeaning.SafeNameIff` | packages/model-openai/src/openai-model.adapter.ts:299-302 | any definition does under exactly the names of neither a data keyword nor a map of schemas |
| `SchemaWrapCarried.CarriedIff` | packages/model-openai/src/openai-model.adapter.ts:263-320 | any reference names in the wrapper the rewriting of what it named, or nothing if it named nothing, exactly when what it names is read alike at its place, and it leads neither into definitions that are taken away nor, having named nothing, to a schema below the key of the old root |
| `SchemaWrapCarried.MovedReferenceResolves` | packages/model-openai/src/openai-model.adapter.ts:281-286 | a moved reference still resolves exactly when it does not lead into the definitions |
| `SchemaWrapTheorem.Same` | packages/core/src/utils/json-schema.validator.ts:181-353 | a schema and its rewriting decide every value alike, each in its own document, at every limit, as long as the references met are carried |
| `SchemaWrapAnswer.WrappedDecides` | packages/model-openai/src/openai-model.adapter.ts:263-297 | at every limit the wrapper decides the wrapped value as the schema decides the value, one level deeper and one reference shorter when the root moved |
| `SchemaWrapAnswer.WrappedShape` | packages/model-openai/src/openai-model.adapter.ts:267-275 | whatever the wrapper accepts is an object holding one value |
| `SchemaWrapAnswer.WrappingPreservesMeaning` | packages/model-openai/src/openai-model.adapter.ts:259-297 | with one level and one reference to spare, a value is valid exactly when the object holding it is valid for the wrapper, whenever the references that evaluation can meet are carried, resolving or not |
| `SchemaWrapAnswer.WrappablePreservesMeaning` | packages/model-openai/src/openai-model.adapter.ts:259-297 | in particular when every reference meets the condition for one reference and names a schema, if anything, and every definition is read alike |
| `SchemaWrapAnswer.UnwrapGivesValue` | packages/model-openai/src/openai-model.adapter.ts:354-366 | unwrapping the printed answer gives the printed value, which reads back |
| `SchemaWrapNames.MisreadDefinition` | packages/model-openai/src/openai-model.adapter.ts:287-297 | under the name of a data keyword or a map of schemas, a definition that refers to the root makes the wrapped schema turn away a list the schema accepts |
| `SchemaWrapNames.LostReference` | packages/model-openai/src/openai-model.adapter.ts:281-297 | a schema whose items refer to its definitions as a whole resolves that reference and accepts a list; wrapped, it resolves no longer and the list is turned away |
| `HashChain.VerifyAuditChain` | packages/core/src/audit/hash-chain-audit.sink.ts:162-206 | `verified` is the longest intact prefix and the entry behind it is the one reported, with the reason |
| `HashChain.HashChainAuditSink.ChainNext` | packages/core/src/audit/hash-chain-audit.sink.ts:100-120 | a write that succeeds extends the chain by its event, a write that fails leaves it where it was |
| `HashChain.EveryScheduleKeepsOrder` | packages/core/src/audit/hash-chain-audit.sink.ts:100-120 | however calls and settling links interleave, with any failures, what is written is what survives of the events settled so far, in arrival order, and the rest waits in arrival order |
| `HashChain.RunSchedule` | packages/core/src/audit/hash-chain-audit.sink.ts:100-120 | the sink itself under any such schedule, started from any state it can be in |
| `HashChain.HashChainAuditSink.StoredIsAccepted` | packages/core/src/audit/hash-chain-audit.sink.ts:63-121 | what the sink stored is accepted, and its head is where a later sink resumes |
| `HashChain.LinkBinds` | packages/core/src/audit/hash-chain-audit.sink.ts:209-215 | equal link hashes mean equal predecessors and equal events |
| `HashChain.SameHeadSameHistory` | packages/core/src/audit/hash-chain-audit.sink.ts:42-53 | two accepted chains with the same start, last sequence and last hash hold the same events, position by position |
| `HashChain.ResumedChain` | packages/core/src/audit/hash-chain-audit.sink.ts:25-40 | two chains join into one accepted chain exactly when the second goes on from the head of the first |
| `HashChain.AlteredEventIsFound` | packages/core/src/audit/hash-chain-audit.sink.ts:153-161 | changing a recorded event breaks the chain exactly there |
| `HashChain.DeletedEntryIsFound` | packages/core/src/audit/hash-chain-audit.sink.ts:153-161 | taking an entry out breaks the chain exactly there, unless it was the last |
| `Redaction.Traversal.Walk` | packages/core/src/utils/redaction-traversal.ts:184-307 | answers the image of a value, finishes every copy it starts and owns up to differences in the flags, whatever is still open |
| `Redaction.Traversal.ContainsSensitive` | packages/core/src/utils/redaction-traversal.ts:126-182 | finding nothing, short of the depth limit, the objects seen are closed under reference and hold nothing redaction would alter |
| `Redaction.TraverseAndRedact` | packages/core/src/utils/redaction-traversal.ts:107-311 | terminates on every graph, and in deny mode without an exceeded depth the copy is complete |
| `Redaction.NothingSensitiveLeft` | packages/core/src/utils/redaction-traversal.ts:83-106 | no path through the output, map keys included, leads to a string redaction would still alter |
| `RedactionOverrides.OverridesMissedIff` | packages/core/src/utils/redaction-traversal.ts:126-182 | the output leads to a record with a property that should have been overridden exactly when such a record hangs off a key of a map that is copied |
| `RedactionOverrides.OverrideMissedInKey` | packages/core/src/utils/redaction-traversal.ts:231-252 | a map with such a record as its key has a complete copy, no flag raised, that keeps the property |
| `Redaction.UnmodifiedMeansSame` | packages/core/src/utils/redaction-traversal.ts:54-69 | a copy reported neither modified nor collided has the same content, object by object |
| `RateLimit.RateLimitPolicy.Evaluate` | packages/core/src/policies/rate-limit.policy.ts:58-95 | decides, hints and logs as the specification does over the whole log, sweeping or not |
| `RateLimit.History.SweepExpiredEntries` | packages/core/src/policies/rate-limit.policy.ts:98-116 | sweeping forgets nothing a later decision needs |
| `RateLimit.SortedSet.Script` | packages/core/src/policies/distributed-rate-limit.policy.ts:51-76 | decides and logs as the specification does, with the key expiring on its own |
| `RateLimit.RunsAreLimited` | packages/core/src/policies/rate-limit.policy.ts:25-36 | over any run of calls, decided by policies with any limits, no window, wherever it starts, holds more admissions than the largest |
| `RateLimit.AdmitsIff` | packages/core/src/policies/rate-limit.policy.ts:68-72 | a call is admitted exactly when the admission a limit before it, if there is one, has left the window |
| `RateLimit.HintIsEnoughIff` | packages/core/src/policies/rate-limit.policy.ts:76-89 | waiting as told is enough exactly when by then the admission a limit before has left the window, as it has whenever the window is exactly full |
| `RateLimit.HintIsEnough` | packages/core/src/policies/rate-limit.policy.ts:76-89 | with one limit of at least 1, a denied caller that waits as told is admitted if no one else was |
| `RateLimit.SharedHistoryHintTooShort` | packages/core/src/policies/rate-limit.policy.ts:38-53 | two limits over one history: the stricter one's hint can be too short |
| `WriteQueue.Session.OpenWriteQueue` | packages/core/src/services/agent-runner.service.ts:326-332 | a turn's queue is chained behind whatever the session still has to write |
| `WriteQueue.Session.Enqueue` | packages/core/src/utils/deferred-write-queue.ts:25-33 | a write joins behind every write queued before it |
| `WriteQueue.Session.Finish` | packages/core/src/utils/deferred-write-queue.ts:25-33 | a settled write takes effect, or leaves its queue's first error, as it comes out on the store as it stands |
| `WriteQueue.Session.Flush` | packages/core/src/utils/deferred-write-queue.ts:41-48 | hands over the failure kept, once the awaited tail has settled, and forgets it |
| `WriteQueue.FlushIsFirst` | packages/core/src/utils/deferred-write-queue.ts:41-48 | what is reported is the first failure, in queue order, among the turn's writes settled since the last flush; all awaited ones have |
| `WriteQueue.FlushReports` | packages/core/src/services/agent-runner.service.ts:823-858 | at the end of a turn it is the first failure the turn would have met writing at once |
| `WriteQueue.StepKeeps` | packages/core/src/utils/deferred-write-queue.ts:17-48 | every event, in any order the event loop picks, keeps the chain, the failures kept and what each write came out as |
| `WriteQueue.ReadSeesEveryWrite` | packages/core/src/services/agent-runner.service.ts:357-360 | a history read that waited for the pending tail sees every write queued so far |
| `WriteQueue.OneAtATime` | packages/core/src/utils/deferred-write-queue.ts:1-8 | behind an unsettled write nothing has started, across chained queues |
| `WriteQueue.SomethingCanRun` | packages/core/src/utils/deferred-write-queue.ts:25-33 | as long as anything is unsettled something runs or can, so a failure stops nothing |
| `WriteQueue.DeferredIsSynchronous` | packages/core/src/services/agent-runner.service.ts:334-355 | under every schedule, once the pending tail has settled, the store holds what it would hold had each write been carried out when it was asked for, failures depending on what the store holds |
| `CircuitBreaker.Breaker.Admit` | packages/core/src/utils/circuit-breaker.ts:91-118 | dispatches and leaves the state the admission function says |
| `CircuitBreaker.Breaker.RecordFailure` | packages/core/src/utils/circuit-breaker.ts:134-147 | leaves the state the failure function says |
| `CircuitBreaker.Breaker.RecordSuccess` | packages/core/src/utils/circuit-breaker.ts:120-132 | leaves the state the success function says |
| `CircuitBreaker.RunIsSound` | packages/core/src/utils/circuit-breaker.ts:91-188 | over every interleaving with late completions: closed below the failure threshold, half-open below the success threshold, a probe flag only in half-open |
| `CircuitBreaker.NoDispatchWhileCooling` | packages/core/src/utils/circuit-breaker.ts:95-99 | after a trip nothing is dispatched before the cooldown has passed |
| `CircuitBreaker.ProbeFlagIff` | packages/core/src/utils/circuit-breaker.ts:101-147 | the probe flag is up exactly when a probe went out and nothing has completed since |
| `CircuitBreaker.OneProbeAtATime` | packages/core/src/utils/circuit-breaker.ts:101-108 | a call that finds the circuit half-open is let through exactly when no probe is out |
| `CircuitBreaker.LateSuccessReleasesSecondProbe` | packages/core/src/utils/circuit-breaker.ts:120-132 | a late success from before the trip lets a second probe out while the first is in flight |
| `CircuitBreaker.GuardedStream.Next` | packages/core/src/adapters/resilient-model.adapter.ts:117-141 | a stream that ends or fails records exactly one outcome, and none before |
| `CircuitBreaker.GuardedStream.Close` | packages/core/src/adapters/resilient-model.adapter.ts:134-141 | a stream closed by its consumer records exactly one success |
| `CircuitBreaker.GuardedStream.Opened` | packages/core/src/adapters/resilient-model.adapter.ts:102-115 | a stream that opens leaves its outcome for later; one that ends or fails at once records it |
| `PolicyChain.ToolCall.Execute` | packages/core/src/providers/local-tool.provider.ts:462-570 | the outcome is as strict as the strictest policy, one approval on the strictest terms is saved exactly when none denies and some withholds, and the tool runs exactly otherwise |
| `PolicyChain.ToolCall.RequestApproval` | packages/core/src/providers/local-tool.provider.ts:601-638 | the most approvers and the shortest effective lifetime of all requests |
| `PolicyChain.OrderDoesNotMatter` | packages/core/src/providers/local-tool.provider.ts:462-570 | permuting the policies changes neither the class nor the terms |
| `PolicyChain.AddingNeverLoosens` | packages/core/src/providers/local-tool.provider.ts:465-549 | more policies are never more lenient, in class or in terms |
| `PolicyChain.RunsOnlyIfAllAllow` | packages/core/src/providers/local-tool.provider.ts:465-551 | the tool runs exactly when every policy allows |

## Left out

- Numbers are real numbers; how they are written is a parameter that reads back what it writes. NaN and the infinities do not occur.
- Strings hold no lone surrogates. Key order is that of UTF-16 code units, as in the source.
- Dates, maps, sets, big integers, functions and cycles in `canonicalize`: the values are JSON values.
- Objects list their fields in enumeration order; that integer-like keys come first in JavaScript is not modelled, nor are prototype keys.
- Regular expressions, percent decoding and the floating-point multiple-of test are uninterpreted; a malformed percent escape is an unresolvable reference.
- Schemas nested as something other than objects, booleans or arrays are not walked into; issue texts are not modelled beyond their existence.
- `isStrictCompatible`, `findSchemaProblems` and the provider requests: no theorem here depends on them.
- SchemaWrapAnswer.WrappingPreservesMeaning: is for schemas whose references, as far as evaluation can meet them, are carried along; the condition is exact for each reference, and the code wraps the schemas of the counterexamples wrongly.
- Approvals are settled one id at a time; several ids are several copies of the system, since every store operation touches one id.
- ApprovalConservation.Conservation: with ids handed out before the checkpoint is attached, is for runs in which no save of it finds the record gone; the others break it, as shown.
- Audit writes and refusals are steps that succeed; a sink that throws is one of the crashes every theorem allows for.
- The content of a record that no check reads is one JSON value; class instances an authorizer might inspect are not modelled.
- Provenance labels, observers, stream events and traces of the loop: pass-through reporting.
- Cancellation and timeouts of the loop are crashes between checkpoints; a turn they end publishes nothing.
- ExecutorRecovery.RecoveryResumes: assumes the model answers from messages and iteration, not from the trace id, which recovery renews, and the same limits, tools and output schema; for a resumed turn, that its reducer does not depend on the pending approval, for which the exact condition is given.
- Resuming an approval that has no checkpoint, from whatever the session history then holds.
- The fingerprint that catches a reducer mutating its input: messages are immutable values here.
- Class instances, built-ins, `toJSON` and getters in the redaction walk: arrays, records, maps, sets, strings and opaque dates and patterns only. Passthrough mode is modelled, its theorems are for deny mode.
- Redaction.NothingSensitiveLeft: says nothing about what an override hands back, which is the policy's own value, and needs a transform that is idempotent.
- Overlapping turns on one session: the code gives their queues no common order. A write of a synchronous turn goes to the store at once, even while writes of an earlier asynchronous turn on the session are pending (agent-runner.service.ts:338-345); the queue model has deferred writes only.
- Retries inside an attempt, jitter and listeners of the breaker.
- Idempotency hits, output rails and the audit trail of the policy chain; policies answer from the call alone.
