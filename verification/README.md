# Physical agent safety kernel: model and proofs

This project models the deterministic safety kernel of the physical agent and the graph
rounds that drive it, and proves what they promise over whole runs.

- **Audit store.** `Json`, `Canonical` and `AuditFormat` are the JSON text of events and
  requests with its decoder. `AuditChain` is the hash chain and its verification loop,
  `AuditLog` the store as a state machine over memory and two files in which every write may
  fail, `AuditGuarantees` the results over whole runs, `AuditStore` the object itself. SHA-256
  and HMAC are parameters: results read "equal, or here are two different strings with the
  same hash".
- **Policy.** `RateLimit` compares the sliding-window limiter with the full history of what it
  admitted; `Capability`, `Risk`, `Policy` and `PolicyEngine` are validation, risk tiers and
  the decision; `Approval` and `ApprovalText` are single-use grants bound to an exact request.
- **Gateway.** `Execution` and `Coordinator` are the state machine and the table of records.
  `Gateway` is the capability gateway as a concurrent protocol: a call runs undisturbed up to
  an adapter await, is parked there, and any parked or new call may go next; the adapter
  answers anything or fails. `GatewayFrames` says what each stretch can touch, `GatewaySafety`
  and `GatewayHistory` are the safety results, `GatewayTrail` ties the entries they speak of
  to the audit log and says what each call writes, `GatewayExact` says exactly when each entry
  reaches an adapter, `CapabilityGateway` is the object, proved to take the protocol's steps.
- **Graph rounds.** `Rounds` is the graph with channels that survive from round to round,
  sessions that share one gateway, and one step per node, so rounds interleave freely.
  `RoundSafety` shows that stale channels never authorise an action, `RoundNodes` what a node
  can do to its thread, `RoundMemory` that memory is true and complete, `RoundScope` that
  rounds keep to their session, `RoundProgress` that rounds end, `RoundTwins` that stale
  channels change nothing that matters, `RoundLeftovers` what a result does carry over.
  `RoundExact` says exactly what each stage of a round does, over `RoundRuns`, which puts
  schedules together; `RoundTrail` what each node writes to the audit log; `RoundStale` is a
  run whose second result is about its first round.
  `NodeHandlers` and `LangGraphRuntime` are the handlers and the runtime as objects.

The functions are the specification; each class method states that the object's fields move
from one specified state to the next, and the lemmas speak about runs of the specification.

Claims that do not hold of the code, each with the lemma that shows it:

- A grant given again for a spent approval id makes a second consume succeed
  (`Approval.SecondConsume`); the gateway then raises, because its record has moved on.
- A clean restart is refused when the interval is above 1 and the last event was not
  checkpointed (`AuditGuarantees.RestartRefused`).
- An explicit checkpoint that fails halfway leaves the store healthy although it can no longer
  be reopened (`AuditGuarantees.FailedCheckpointGoesUnnoticed`).
- A re-check later than the window takes a second slot (`RateLimit.LateRecheckTakesASlot`).
- A capability whose default tier is no tier takes a limiter slot and then raises
  (`Policy.AllowedWriteIsRecorded`).
- A result may list an earlier round's outcome as its capability and evidence
  (`RoundStale.StaleCapabilities`), and the reason of a rejection is an earlier one whenever a
  decision denied or a human refused; `RoundLeftovers.ReportsCarryOver` says exactly when.

The retry edges drawn in the comment of `src/physical_agent/runtime/graph.py:140-163` are not
in the code; the model follows the code.

## Model

| member | source | states |
|---|---|---|
| `Json.ParseRender` | src/physical_agent/audit/store.py:45-52 | decoding the rendering of any JSON value with integer numbers gives the value back, in either separator style |
| `Json.RenderSpells` | src/physical_agent/audit/store.py:45-52 | the rendering is the text of the JSON grammar, with the escapes and separators of the encoder, in either style |
| `Canonical.TextIsSame` | src/physical_agent/policy/approval.py:41-51 | two values have the same sorted compact text if and only if they are equal as JSON values, whatever the order in which their dictionaries were filled |
| `Canonical.DecodeText` | src/physical_agent/policy/approval.py:41-51 | the canonical text decodes to an equal value |
| `Canonical.SameIsSorted` | src/physical_agent/audit/store.py:45-52 | equal values are exactly those with the same key-sorted form |
| `Hashing.SplitUnique` | src/physical_agent/audit/store.py:248-248 | the plain concatenation of previous hash and canonical text splits in only one way, because the first part has no brace and the second starts with one |
| `AuditFormat.TextFixesEntry` | src/physical_agent/audit/store.py:45-52 | equal canonical texts mean equal event type, correlation id, data and timestamp |
| `AuditFormat.ReadWritten` | src/physical_agent/audit/store.py:54-62 | the line flushed for an event reads back as that event, its previous hash and its hash |
| `AuditFormat.CanonicalLayout` | src/physical_agent/audit/store.py:45-52 | the canonical text is exactly the four hashed fields under their names in key order, without white space |
| `AuditFormat.LineLayout` | src/physical_agent/audit/store.py:54-62 | the flushed line is exactly the four fields, the link and the hash under their names, in the order in which they were filled in |
| `AuditFormat.AnyReaderLawful` | src/physical_agent/audit/store.py:45-62 | the source's canonical text and log line, with any reader that inverts them, meet every law the chain results assume |
| `AuditFormat.JsonFormatLawful` | src/physical_agent/audit/store.py:112-145 | the decoder given here is such a reader |
| `AuditFormat.FileLinesOfText` | src/physical_agent/audit/store.py:269-273 | lines written with one newline each are read back as those lines: one event is one line |
| `AuditFormat.LineTextOneLine` | src/physical_agent/audit/store.py:269-273 | no flushed line contains a raw newline, whatever strings the event holds |
| `AuditChain.TailFixesLog` | src/physical_agent/audit/store.py:242-255 | two chains with the same tail hash hold the same events in the same order and number, or walking them back yields two different strings with one hash; GENESIS is never a digest |
| `AuditChain.AcceptedWithSameTail` | src/physical_agent/audit/store.py:112-153 | the same for any two log files that loading accepts |
| `AuditChain.LoadIsChain` | src/physical_agent/audit/store.py:119-145 | whatever loads is a valid chain |
| `AuditChain.LoadWritten` | src/physical_agent/audit/store.py:132-145 | the line of the next event continues the loaded chain with exactly that event |
| `AuditChain.PayloadKept` | src/physical_agent/audit/store.py:37-43 | a payload is stored as it is unless Python takes it for false, which nothing, zero and everything empty are |
| `AuditGuarantees.JsonLogsAgree` | src/physical_agent/audit/store.py:112-153 | any two files accepted with one tail hash hold the same events, or a collision is exhibited, for every reader that inverts the source's texts whatever else it accepts |
| `AuditGuarantees.HonestFileLoads` | src/physical_agent/audit/store.py:112-153 | the text of an honestly written file loads to exactly the chain it was written from |
| `AuditLog.RunKeeps` | src/physical_agent/audit/store.py:242-293 | with flush and checkpoint writes failing at arbitrary points, memory stays a valid chain that is the log on disk or that log without one last event, and a checkpoint lags by no more than the events counted |
| `AuditLog.AppendEffect` | src/physical_agent/audit/store.py:242-267 | what one append may do to memory, the log file and the health flag, whatever write fails |
| `AuditLog.AppendExactly` | src/physical_agent/audit/store.py:242-273 | an append succeeds if and only if the store is healthy, the line was flushed and a checkpoint that is due was written; all that it has changed then, and what a failed flush leaves |
| `AuditLog.CheckpointExactly` | src/physical_agent/audit/store.py:275-293 | the public checkpoint is refused in quarantine, else it replaces the configured file, unless the write fails |
| `AuditLog.CheckpointAccepted` | src/physical_agent/audit/store.py:158-189 | a checkpoint file is accepted if and only if it names the tail and, under a key, signs it; otherwise the store is quarantined |
| `AuditLog.LoadsNothing` | src/physical_agent/audit/store.py:114-117 | without a log file there is nothing to verify, and the store is loaded and healthy |
| `AuditLog.OpenNeedsCheckpoint` | src/physical_agent/audit/store.py:88-101 | a store whose first checkpoint cannot be written does not open |
| `AuditLog.OpenFresh` | src/physical_agent/audit/store.py:84-87 | an interval below 1 is refused; without loading nothing is read |
| `AuditLog.LoadKeeps` | src/physical_agent/audit/store.py:147-156 | after loading, memory is what the file holds, and the store is healthy only if the checkpoint agreed |
| `AuditGuarantees.RunWrites` | src/physical_agent/audit/store.py:242-273 | over every run the log file stays line by line the text of a chain |
| `AuditGuarantees.OpenEmpty` | src/physical_agent/audit/store.py:68-104 | opening an empty log gives an empty, healthy store that meets the invariant |
| `AuditGuarantees.RestartExact` | src/physical_agent/audit/store.py:68-156 | reopening the files of a healthy store gives back that very store, counters included, exactly when the checkpoint file is absent or signs the tail; otherwise the same events, quarantined |
| `AuditGuarantees.RestartAfterRun` | src/physical_agent/audit/store.py:68-156 | after any fault-free run, whatever is configured, reopening gives back that very store if and only if it was quarantined already or the checkpoint agrees with the tail; otherwise the same store, quarantined |
| `AuditGuarantees.RestartRefinesNoRestart` | src/physical_agent/audit/store.py:68-156 | after any fault-free run that ends without a checkpoint file, or with interval 1, a store closed and reopened behaves like one that was never closed, under every later run |
| `AuditGuarantees.RestartRefused` | src/physical_agent/audit/store.py:185-189 | with an interval of at least 2 one honest append after opening is enough for a clean restart to be quarantined |
| `AuditGuarantees.CheckpointLag` | src/physical_agent/audit/store.py:256-266 | a healthy log runs past its checkpoint by at most the count of events since, itself below the interval |
| `AuditGuarantees.TruncationCaught` | src/physical_agent/audit/store.py:158-189 | a truncated copy of an honest log opens healthy exactly when it is cut at the checkpointed event, or a collision is exhibited |
| `AuditGuarantees.TailCheckpointCatchesAll` | src/physical_agent/audit/store.py:158-189 | with the checkpoint at the tail every strict truncation is refused, or a collision is exhibited |
| `AuditGuarantees.AcceptedIsPrefixOrForged` | src/physical_agent/audit/store.py:158-189 | files that open healthy under a signing key hold a prefix of the honest log, or collide, or carry a valid signature on a hash that no honest prefix has |
| `AuditGuarantees.TamperedFileQuarantines` | src/physical_agent/audit/store.py:137-143 | an event changed after it was written, in content, hash or link, clears the health flag and leaves memory as it was, when loading and when opening, whatever follows it in the file |
| `AuditGuarantees.CorruptFileQuarantines` | src/physical_agent/audit/store.py:125-130 | so does a line that is no JSON |
| `AuditGuarantees.UnkeyedFileRaises` | src/physical_agent/audit/store.py:132-132 | a line without a mandatory key raises instead, and touches no flag |
| `AuditGuarantees.BadLineQuarantines` | src/physical_agent/audit/store.py:119-143 | what the first line that does not continue the chain does to loading, by its kind |
| `AuditGuarantees.QuarantineHolds` | src/physical_agent/audit/store.py:245-246 | a quarantined store changes in no way under appends and checkpoints until it is loaded again |
| `AuditGuarantees.LoadHeals` | src/physical_agent/audit/store.py:249-266 | a failed append quarantines; once a load accepts the file, memory is exactly what the file holds |
| `AuditGuarantees.FailedCheckpointGoesUnnoticed` | src/physical_agent/audit/store.py:275-293 | an explicit checkpoint whose write is torn leaves the store healthy, yet reopening it is refused |
| `AuditStore.AuditStore.Create` | src/physical_agent/audit/store.py:68-104 | the constructor: opens as the state machine does, or raises |
| `AuditStore.AuditStore.ReadLog` | src/physical_agent/audit/store.py:119-145 | the verification loop computes the chain of the lines or the first failure |
| `AuditStore.AuditStore.LoadAndVerify` | src/physical_agent/audit/store.py:112-156 | updates the fields as the state machine does |
| `AuditStore.AuditStore.VerifyCheckpoint` | src/physical_agent/audit/store.py:158-189 | updates the health flag as the state machine does |
| `AuditStore.AuditStore.Append` | src/physical_agent/audit/store.py:242-267 | updates fields and files as the state machine does, for every write failure |
| `AuditStore.AuditStore.Checkpoint` | src/physical_agent/audit/store.py:275-293 | updates the checkpoint file as the state machine does |
| `AuditStore.AuditStore.VerifyChain` | src/physical_agent/audit/store.py:304-315 | succeeds if and only if every stored hash fits its predecessor, and quarantines otherwise |
| `AuditStore.ChainFits` | src/physical_agent/audit/store.py:304-315 | every valid chain passes that check |
| `RateLimit.RateLimiter.Check` | src/physical_agent/policy/engine.py:54-65 | prunes, re-admits a known id without a slot, refuses at the limit, else records |
| `RateLimit.WindowIsHistory` | src/physical_agent/policy/engine.py:57-58 | pruning loses nothing: the kept list and the full admission history agree on the current window |
| `RateLimit.LimiterExact` | src/physical_agent/policy/engine.py:54-65 | the limiter answers as if it had kept everything; a new id is refused exactly when the window of the full history holds max_calls entries |
| `RateLimit.WindowBound` | src/physical_agent/policy/engine.py:54-65 | in any closed interval of the window length at most max_calls admissions are recorded per key, over every run with a non-decreasing clock |
| `RateLimit.PassedBound` | src/physical_agent/policy/engine.py:59-61 | at most twice max_calls distinct ids are answered True in any such interval, re-checks included |
| `RateLimit.RecheckExact` | src/physical_agent/policy/engine.py:56-65 | a check takes a slot if and only if no admission of the id lies within the window and the window is not full; it is answered True if and only if such an admission exists or it takes a slot |
| `RateLimit.LateRecheckTakesASlot` | src/physical_agent/policy/engine.py:58-65 | a concrete re-check after the window takes a second slot |
| `Capability.ValidateParameters` | src/physical_agent/capability/schema.py:112-124 | the two loops fill exactly the dictionary of undeclared and unmet parameters |
| `Capability.NoErrors` | src/physical_agent/capability/schema.py:112-124 | there are no errors if and only if everything given is declared and every declaration is met |
| `Capability.AcceptedExactly` | src/physical_agent/capability/schema.py:35-66 | a declaration accepts exactly: nothing if it may be missing, else a value of the declared type, within the bounds and among the listed values, where Python equality holds |
| `Capability.RefusedBecause` | src/physical_agent/capability/schema.py:35-66 | what is reported of a value that is not accepted |
| `Risk.ClassifyRisk` | src/physical_agent/policy/risk.py:56-90 | the loop and branches compute the classification |
| `Risk.TierMonotone` | src/physical_agent/policy/risk.py:56-90 | the tier is never below the default and is monotone in it |
| `Risk.OverridesExact` | src/physical_agent/policy/risk.py:84-88 | with override rules the tier is the highest of the rules and of the tier without them |
| `Policy.DeniedTakesNoSlot` | src/physical_agent/policy/engine.py:107-162 | a denied evaluation records no admission |
| `Policy.AllowedWriteIsRecorded` | src/physical_agent/policy/engine.py:155-162 | an allowed write has its id in the window; so has one that ends in the exception for an invalid default tier |
| `Policy.ReevaluationAgrees` | src/physical_agent/policy/engine.py:94-185 | re-evaluating an allowed request gives the same decision and takes no slot, after any evaluations by anybody in between: a read always, a write as long as the admission its first evaluation found or made is within the window |
| `Policy.AdmissionStays` | src/physical_agent/policy/engine.py:56-65 | no evaluation at a time within the window of an admission removes that admission |
| `Policy.FirstEvaluationAdmits` | src/physical_agent/policy/engine.py:59-65 | an allowed write with no admission in the window makes one at its own time, so it may be re-evaluated for the whole length of the window |
| `Policy.AllowedExactly` | src/physical_agent/policy/engine.py:107-162 | a request is allowed if and only if it is registered, acceptable, of a valid tier and, for a write, not killed, not rapid-cycling and within the limit or already admitted |
| `Policy.DecisionTier` | src/physical_agent/policy/engine.py:164-185 | an allowed decision is at least at the default tier and asks for approval exactly from SIGNIFICANT up |
| `Policy.TierExactly` | src/physical_agent/policy/risk.py:56-90 | exactly which circumstances raise an allowed request to which tier, and when a human has to approve it |
| `Policy.AllowedBecause` | src/physical_agent/policy/risk.py:56-90 | the reason given with an allowed decision: what has raised its tier, in this order |
| `Policy.DeniedBecause` | src/physical_agent/policy/engine.py:107-162 | exactly why a request is denied, the first reason in the order of the checks |
| `PolicyEngine.PolicyEngine.Evaluate` | src/physical_agent/policy/engine.py:94-185 | the object evaluates, and changes its limiter, as the function does |
| `Execution.NoStateTwice` | src/physical_agent/execution/state_machine.py:41-58 | the transition table is acyclic: no machine enters a state twice |
| `Execution.AdvanceFromDispatched` | src/physical_agent/safety/gateway.py:321-331 | a dispatched machine can be advanced to every verification level without an illegal transition |
| `Execution.AdvanceFromAny` | src/physical_agent/safety/gateway.py:321-331 | advancing goes on from where the machine stands, skips what it has passed, and has no legal first step before the dispatch |
| `Execution.BeginExactly` | src/physical_agent/execution/coordinator.py:52-74 | exactly when a record can be opened, and what it holds then |
| `Execution.ApproveExact` | src/physical_agent/execution/coordinator.py:76-80 | approving works for exactly the records that wait for approval, leads to AUTHORIZED and touches no other record |
| `Execution.Verify` | src/physical_agent/verification/engine.py:19-43 | later, stronger evidence decides the level |
| `Capability.ReachedOrder` | src/physical_agent/verification/evidence.py:38-41 | the levels are ordered, and reaching one means being at least there |
| `Coordinator.ExecutionStateMachine.Advance` | src/physical_agent/execution/state_machine.py:88-95 | moves and appends to the history if and only if the table allows it |
| `Coordinator.ExecutionStateMachine.AdvanceTo` | src/physical_agent/safety/gateway.py:321-331 | the loop takes the steps up to the level that the history lacks |
| `Coordinator.ExecutionCoordinator.Begin` | src/physical_agent/execution/coordinator.py:52-74 | adds one fresh record under a new id, or raises for a denied decision or a known id |
| `Coordinator.ExecutionCoordinator.Approve` | src/physical_agent/execution/coordinator.py:76-80 | advances the one record in place, no other |
| `Coordinator.ExecutionCoordinator.MarkDispatched` | src/physical_agent/execution/coordinator.py:82-85 | stores the result, then advances the one record in place |
| `Coordinator.ExecutionCoordinator.AdvanceRecord` | src/physical_agent/execution/coordinator.py:87-88 | advances the one record in place |
| `Approval.ApprovalEngine.Request` | src/physical_agent/policy/approval.py:95-113 | files the request bound to correlation id, principal, device, capability, digest and tier |
| `Approval.ApprovalEngine.Give` | src/physical_agent/policy/approval.py:115-126 | grants a known, unexpired request, replacing any earlier grant |
| `Approval.ApprovalEngine.Use` | src/physical_agent/policy/approval.py:128-156 | consumes the grant if and only if nothing mismatches, with the first mismatch as the reason |
| `Approval.ConsumeLaw` | src/physical_agent/policy/approval.py:115-156 | an id has been consumed once per re-granting of a spent grant, plus once if it is spent now; consumes never exceed grants |
| `Approval.GrantBetweenConsumes` | src/physical_agent/policy/approval.py:115-156 | two consumes of one id have a grant of it between them |
| `Approval.ConsumeMatchesAsk` | src/physical_agent/policy/approval.py:128-156 | every consume is backed by an earlier request with the same principal, device, capability, correlation id and tier, in time, and with the same parameters, or the two request texts collide |
| `Approval.LifeCycle` | src/physical_agent/policy/approval.py:95-156 | exactly when what was asked for can be granted, and when the grant can be used: until it expires, by the same action, id and tier, and by no other |
| `Approval.RefusedExactly` | src/physical_agent/policy/approval.py:115-163 | nobody can grant what was not asked for, or grant or use what has expired, or use a spent grant |
| `Approval.SecondConsume` | src/physical_agent/policy/approval.py:125-125 | granting a spent id again makes a second consume succeed |
| `Approval.DigestBinds` | src/physical_agent/policy/approval.py:54-59 | equal digests mean the same action, or two different request texts with one hash |
| `ApprovalText.JsonBindingBinds` | src/physical_agent/policy/approval.py:41-51 | equal canonical request texts mean equal principal, device, capability and parameters |
| `ApprovalText.RequestLayout` | src/physical_agent/policy/approval.py:41-51 | the text an approval is bound to is exactly the four fields under their names in key order, without white space |
| `Adapters.RoutedByLast` | src/physical_agent/adapters/registry.py:43-75 | after any registrations an id is routed to a domain if and only if that is the domain of the last registration of its namespace |
| `Adapters.NamespaceSplit` | src/physical_agent/adapters/registry.py:61-63 | the namespace is what stands before the first dot, or the whole id when there is none |
| `GatewaySafety.StepSafe` | src/physical_agent/safety/gateway.py:69-331 | every step of every interleaving keeps the protocol invariant; after an await no transition is illegal and no record missing |
| `GatewaySafety.AtMostOnceActuation` | src/physical_agent/safety/gateway.py:69-331 | under every interleaving adapter.execute is called at most once per correlation id, even when other users change the approvals, the limiter and the audit store arbitrarily |
| `GatewaySafety.AtMostOncePreauthorized` | src/physical_agent/safety/gateway.py:186-247 | the preauthorized entry reaches an adapter, observing or executing, at most once per correlation id |
| `GatewaySafety.ParkedFacts` | src/physical_agent/safety/gateway.py:284-302 | a call resumed after an await finds its record AUTHORIZED, then DISPATCHED |
| `GatewaySafety.NotDispatchedOutcome` | src/physical_agent/safety/gateway.py:288-291 | evidence of no dispatch leaves the record FAILED and ends the call |
| `GatewaySafety.DispatchedOutcome` | src/physical_agent/safety/gateway.py:293-298 | evidence of a dispatch leaves the record DISPATCHED with that evidence, and the call goes on to verify |
| `GatewaySafety.VerifiedOutcome` | src/physical_agent/safety/gateway.py:299-319 | a finished write reports V4, V3, V2 or V1 by the strongest part of the verified evidence, is completed if and only if that part is enough for what the capability requires, and leaves its record at the matching state |
| `GatewaySafety.ModeBoundary` | src/physical_agent/safety/gateway.py:121-128 | in PHYSICAL mode every actuation happens with writes enabled, no kill file, policy and allowlist loaded, an audit log that is loaded, intact, signed and checkpointed, and an adapter not simulation-only; in SIMULATION no physical-only adapter is touched |
| `GatewayExact.ExecuteExactly` | src/physical_agent/safety/gateway.py:69-128 | execute reaches the adapter only if, and when no audit write fails whenever, the id is new, the policy permits the request, no human has to be asked, the gate is open and the capability is routed; it asks a human exactly for what is permitted and needs one; the call and the question are exactly this |
| `GatewayExact.ExecuteRefuses` | src/physical_agent/safety/gateway.py:77-107 | what execute answers when it refuses, the first reason in order, and that nothing else has changed |
| `GatewayExact.ApproveExactly` | src/physical_agent/safety/gateway.py:130-137 | approve grants exactly what was asked for and has not expired |
| `GatewayExact.ApprovedExactly` | src/physical_agent/safety/gateway.py:139-184 | execute_approved reaches the adapter only if, and when no audit write fails whenever, the policy still permits the request, the grant can be used for it at its tier, its record waits for approval, the gate is open and the capability is routed |
| `GatewayExact.PreauthorizedExactly` | src/physical_agent/safety/gateway.py:186-247 | execute_authorized_simulation reaches the adapter only if, and when no audit write fails whenever, the mode is SIMULATION, the id is new, the decision allows it and the capability is registered and routed |
| `GatewayExact.ResumeExactly` | src/physical_agent/safety/gateway.py:264-319 | what an adapter's answer does to the call that waits for it |
| `GatewayExact.GateExactly` | src/physical_agent/safety/write_gate.py:48-72 | the write gate opens if and only if writes are enabled, there is no kill file, a policy and an allowlist are loaded, and the audit log is loaded, intact, signed and checkpointed; else it gives the first reason |
| `GatewayExact.CompletionIsEarned` | src/physical_agent/safety/gateway.py:299-311 | in every run a call is finished only by the answer of its adapter, and a write is completed only if that answer is worth what its capability requires |
| `GatewayHistory.ApprovedIsWhatWasAsked` | src/physical_agent/safety/gateway.py:139-184 | the request an approved call hands to the adapter has the principal, device, capability and tier of the one that opened its record, and the same parameters, or two request texts collide |
| `GatewayHistory.GrantSpentExactly` | src/physical_agent/safety/gateway.py:145-174 | a request denied or not matching its approval leaves the grant intact; one that reaches the adapter has just spent it |
| `GatewayHistory.OneRequestPerRecord` | src/physical_agent/safety/gateway.py:108-119 | there is exactly one approval request per record opened as needing approval |
| `GatewayTrail.LogIsTrail` | src/physical_agent/safety/gateway.py:69-331 | in every run driven by the entry points alone the audit log is what it was at the start followed by exactly one event per entry the gateway has written, with its type and correlation id, whatever audit writes fail |
| `GatewayTrail.DispatchIsToldInOrder` | src/physical_agent/safety/gateway.py:84-119 | among the events added to the audit log each correlation id has at most one dispatched event, preceded in order by its request and, for an approval flow, by needs_approval, approval_granted and approved; no audit write is assumed to succeed |
| `GatewayTrail.ExecuteWrites` | src/physical_agent/safety/gateway.py:84-127 | execute answers only after each of its audit writes has succeeded, and has written exactly these events, by its answer |
| `GatewayTrail.ApproveWrites` | src/physical_agent/safety/gateway.py:130-137 | the grant, under the correlation id of the request |
| `GatewayTrail.ApprovedWrites` | src/physical_agent/safety/gateway.py:149-183 | what execute_approved writes, by its answer |
| `GatewayTrail.PreauthorizedWrites` | src/physical_agent/safety/gateway.py:206-247 | what execute_authorized_simulation writes, by its answer |
| `GatewayTrail.ResumeWrites` | src/physical_agent/safety/gateway.py:264-319 | what a call writes after an await, by where it waited |
| `GatewayTrail.LogExactly` | src/physical_agent/audit/store.py:242-267 | each audit write of a call meets the next outcome in store, and fails exactly when that hits it or the store was in quarantine |
| `GatewayFrames.GatewayOnward` | src/physical_agent/safety/gateway.py:69-331 | no gateway call makes an earlier adapter call again, disturbs another parked call, or loses or changes an approval request |
| `CapabilityGateway.CapabilityGateway.Execute` | src/physical_agent/safety/gateway.py:69-128 | the object does what the protocol step does, up to its await, and keeps the protocol invariant |
| `CapabilityGateway.CapabilityGateway.Approve` | src/physical_agent/safety/gateway.py:130-137 | likewise |
| `CapabilityGateway.CapabilityGateway.ExecuteApproved` | src/physical_agent/safety/gateway.py:139-184 | likewise |
| `CapabilityGateway.CapabilityGateway.ExecuteAuthorizedSimulation` | src/physical_agent/safety/gateway.py:186-247 | likewise |
| `CapabilityGateway.CapabilityGateway.Dispatch` | src/physical_agent/safety/gateway.py:251-284 | likewise, for the part of a dispatch before its await |
| `CapabilityGateway.CapabilityGateway.Resume` | src/physical_agent/safety/gateway.py:284-319 | the rest of a dispatch after any await: never an illegal transition or a missing record |
| `CapabilityGateway.CapabilityGateway.GateCheck` | src/physical_agent/safety/write_gate.py:48-72 | the write gate reads the shared objects and answers as specified |
| `RoundSafety.RoundsAreAuthorised` | src/physical_agent/runtime/nodes/policy_gate.py:103-186 | whatever earlier rounds left in the channels and whatever the model proposes, a round calls the gateway at most once, with the request and allowed decision of its own policy gate; if that needs approval, the human answered approve in this round, the same request was re-evaluated as allowed at the same tier and its grant consumed in this round |
| `RoundSafety.StatusIsThisRounds` | src/physical_agent/runtime/langgraph.py:192-216 | SIMULATION completed is reported exactly when this round's authorised call came back completed, verification failed exactly when it came back otherwise, any other status exactly when the gateway was not called |
| `RoundSafety.WorldActuatesOnce` | src/physical_agent/runtime/nodes/execute.py:32-64 | with any number of sessions and other users of the gateway no correlation id is actuated twice |
| `RoundSafety.WorldModeBoundary` | src/physical_agent/safety/gateway.py:121-128 | the mode boundary holds for every single adapter call of every world, observing or actuating, whoever made it |
| `RoundSafety.ReviewStaged` | src/physical_agent/runtime/nodes/human_review.py:42-122 | a resumed review authorises only what the gate had decided, at its tier |
| `RoundSafety.GateStaged` | src/physical_agent/runtime/nodes/policy_gate.py:103-166 | the gate replaces every earlier authorisation by this round's |
| `RoundExact.GateExactly` | src/physical_agent/runtime/nodes/policy_gate.py:38-166 | from the intent on: the round puts to the policy what the model proposed, in the name of who asked, and goes on to execute exactly when that is permitted and needs no human, to a human exactly when it is permitted and needs one, and escalates otherwise |
| `RoundExact.ExtractExactly` | src/physical_agent/runtime/nodes/policy_gate.py:38-84 | exactly when a request can be read out of the channels, and which |
| `RoundExact.ReviewExactly` | src/physical_agent/runtime/nodes/human_review.py:42-122 | a human's answer leads to execute if and only if it is approve, the policy still permits the request and the grant of this round can be used for it; then, and only then, the grant is spent |
| `RoundExact.RejectTouchesNothing` | src/physical_agent/runtime/nodes/human_review.py:57-64 | after a reject nothing is evaluated, granted or spent, no adapter is called, and the round escalates or stops |
| `RoundExact.SuspendsExactly` | src/physical_agent/runtime/langgraph.py:137-157 | the suspended session is registered and the result shows what to approve |
| `RoundExact.ExecuteReaches` | src/physical_agent/runtime/nodes/execute.py:32-64 | the execute node waits for an adapter if and only if the preauthorized entry takes this round's request and decision |
| `RoundExact.AnswerExactly` | src/physical_agent/safety/gateway.py:264-319 | what an adapter's answer does to the round that waits for it |
| `RoundExact.EndsExactly` | src/physical_agent/runtime/nodes/verify.py:30-69 | from the reply to the result: one memory event and simulation completed if the reply was completed, no event and verification failed otherwise |
| `RoundExact.MemoryExactly` | src/physical_agent/runtime/nodes/memory_update.py:35-85 | whatever the channels hold, an event is written if and only if verification was satisfied by a completed outcome and the store works, and then this one |
| `RoundExact.FailingSourceStops` | src/physical_agent/runtime/nodes/recall.py:40-43 | a round stops where its perception source or memory store fails, before it writes anything |
| `RoundExact.EscalationReports` | src/physical_agent/runtime/graph.py:121-137 | a round that escalates reports a rejection without having called the gateway |
| `RoundExact.RoundCompletionIsEarned` | src/physical_agent/runtime/nodes/verify.py:42-69 | in every run a round comes back completed only by its adapter's answer, and if it wrote, only when that answer is worth what the capability requires |
| `RoundExact.ReasonExactly` | src/physical_agent/runtime/nodes/reason.py:57-99 | whatever earlier rounds left, this round's answer and route stand in the channels, and no plan |
| `RoundExact.PlanExactly` | src/physical_agent/runtime/nodes/plan.py:35-77 | the plan is one step that asks for what the model proposed; without a name or an id the node raises |
| `RoundExact.ResumeAnswers` | src/physical_agent/runtime/langgraph.py:159-176 | a resume of a session that is unknown or finalized is answered and changes nothing else |
| `RoundExact.ReportFinalizes` | src/physical_agent/runtime/langgraph.py:218-221 | reporting finalizes the session, as registered by run or found by resume |
| `RoundTrail.NodeWrites` | src/physical_agent/runtime/graph.py:140-212 | a node goes on only after its audit write has succeeded, and has written exactly this |
| `RoundTrail.GateWrites` | src/physical_agent/runtime/nodes/policy_gate.py:103-166 | what the gate writes, by what it decided |
| `RoundTrail.ReviewWrites` | src/physical_agent/runtime/nodes/human_review.py:57-120 | what a human's answer writes |
| `RoundTrail.RoundWrites` | src/physical_agent/runtime/langgraph.py:114-221 | a round begins and is reported only after the entries around it were written |
| `RoundTrail.ExecutionWrites` | src/physical_agent/runtime/nodes/execute.py:32-64 | the execute node adds its own entry once the gateway has replied |
| `RoundTrail.NodeLogExactly` | src/physical_agent/audit/store.py:242-267 | the same of the audit writes of nodes |
| `RoundMemory.MemoryIsTrue` | src/physical_agent/runtime/nodes/memory_update.py:35-85 | every memory event records one completed gateway call, with its correlation id, capability, parameters and device |
| `RoundMemory.RememberedOnce` | src/physical_agent/runtime/nodes/memory_update.py:35-85 | no gateway call and no correlation id is remembered twice across all sessions |
| `RoundMemory.MemoryIsComplete` | src/physical_agent/runtime/nodes/memory_update.py:35-85 | never more events than completed calls, and equally many when no round was stopped by an exception or is still on its way |
| `RoundMemory.HistoryKept` | src/physical_agent/runtime/nodes/memory_update.py:35-85 | what the history counts: a stop for every round an exception has ended, a completed call for every completed reply that reaches a round, a written one for every event |
| `RoundScope.MemoryIsScoped` | src/physical_agent/runtime/nodes/memory_update.py:35-85 | memory changes only when a round writes its own completed outcome: its session and correlation id, the capability, parameters and device of the one gateway call it made, and the level of the reply |
| `RoundNodes.PlainMoves` | src/physical_agent/runtime/graph.py:140-212 | a node that neither calls the gateway nor writes memory touches no record or call of the gateway, keeps session and correlation id, and moves strictly towards the end of the graph |
| `RoundProgress.RoundTerminates` | src/physical_agent/runtime/graph.py:140-212 | until the session begins another round at most thirteen turns are left to it, whatever everybody else does |
| `RoundProgress.NeverStuck` | src/physical_agent/runtime/graph.py:74-137 | a round that is neither suspended nor over always has an enabled turn; the call it waits for is parked |
| `RoundProgress.ReplayDoesNothing` | src/physical_agent/runtime/langgraph.py:159-185 | once a round was reported, or cancelled while suspended, no resume of its session takes a turn until the session begins another round |
| `RoundProgress.ReportedIsOver` | src/physical_agent/runtime/langgraph.py:218-221 | reporting a round finalizes its session, unless it was cancelled |
| `RoundTwins.StaleChannelsDoNotMatter` | src/physical_agent/runtime/langgraph.py:114-185 | two worlds that differ only in what finished rounds left in the channels have the same schedules, adapter calls, memory, session table and reported statuses |
| `RoundTwins.AnyLeftovers` | src/physical_agent/runtime/state.py:92-148 | any channels at all may be left behind by finished rounds in that statement |
| `RoundLeftovers.ReportsCarryOver` | src/physical_agent/runtime/langgraph.py:192-237 | exactly which part of a result is this round's, by the status it shows: capabilities and verification evidence if and only if the status is simulation completed or verification failed, the policy route unless there was nothing to do or reasoning failed, the reject reason if and only if the gate could read no request or the evaluation failed; everything else is what the channels held before |
| `RoundStale.IdleRoundCarries` | src/physical_agent/runtime/langgraph.py:199-237 | in any world a free session can take a round with nothing to do, whose result carries over the outcome, verification and policy route that earlier rounds left |
| `RoundStale.StaleCapabilities` | src/physical_agent/runtime/langgraph.py:223-237 | a run from a new world whose second result says that there was nothing to do and lists the observation of the first round as its capability and as satisfied evidence |
| `NodeHandlers.Reason` | src/physical_agent/runtime/nodes/reason.py:57-99 | the node resets route and plan in every round, as specified |
| `NodeHandlers.MakePlan` | src/physical_agent/runtime/nodes/plan.py:35-77 | the node builds the one-step plan, or raises |
| `NodeHandlers.PolicyGateNode` | src/physical_agent/runtime/nodes/policy_gate.py:103-166 | the handler changes limiter, approvals and audit log, and returns the update, as specified |
| `NodeHandlers.HumanReview` | src/physical_agent/runtime/nodes/human_review.py:42-122 | the resumed handler re-evaluates, consumes and routes, as specified |
| `NodeHandlers.ExecuteHandler` | src/physical_agent/runtime/nodes/execute.py:32-64 | the handler calls the gateway with the channel's request and decision, as specified |
| `NodeHandlers.VerifyHandler` | src/physical_agent/runtime/nodes/verify.py:30-69 | the handler maps the outcome to evidence, as specified |
| `NodeHandlers.UpdateMemory` | src/physical_agent/runtime/nodes/memory_update.py:35-85 | the handler appends one event for a completed outcome and none otherwise |
| `NodeHandlers.RunHandler` | src/physical_agent/runtime/graph.py:140-212 | runs the node a thread stands before, as specified |
| `LangGraphRuntime.LangGraphRuntime.Run` | src/physical_agent/runtime/langgraph.py:114-142 | performs the step that starts a round from START over whatever the thread's channels hold; keeps everything proved of reachable worlds |
| `LangGraphRuntime.LangGraphRuntime.RunNextNode` | src/physical_agent/runtime/langgraph.py:137-157 | performs the step of one node; when the graph suspends, registers the session and answers needs_approval; keeps everything proved of reachable worlds |
| `LangGraphRuntime.LangGraphRuntime.AdapterAnswers` | src/physical_agent/runtime/langgraph.py:137-142 | performs the step by which the round waiting for an adapter goes on; keeps everything proved of reachable worlds |
| `LangGraphRuntime.LangGraphRuntime.Resume` | src/physical_agent/runtime/langgraph.py:159-185 | performs the resume step: unknown and finalized sessions are answered from the table alone, others re-enter the review; keeps everything proved of reachable worlds |
| `LangGraphRuntime.LangGraphRuntime.Finish` | src/physical_agent/runtime/langgraph.py:192-237 | performs the step that reports the final status and finalizes the session; keeps everything proved of reachable worlds |
| `LangGraphRuntime.LangGraphRuntime.CancelSession` | src/physical_agent/runtime/langgraph.py:187-188 | performs the cancel step, after which a resume is answered unknown session; keeps everything proved of reachable worlds |
| `RoundProgress.CancelForgets` | src/physical_agent/runtime/langgraph.py:187-188 | cancelling touches no thread, gateway, memory or other session; the session is over if and only if its round was not under way, so a running round goes on |

## Left out

- Floating point: numbers in JSON are integers, parameter bounds are reals, time and windows are reals.
- JSON spellings the encoder never emits, such as other white space and surrogate escapes: the decoder given here rejects them. Of a repeated key it keeps the later member, as the source's decoder does. The results on logs hold for every reader that inverts the written lines.
- Lone surrogates that cannot be encoded, a checkpoint file whose signature text is not ASCII, and lines written in part.
- The payloads of the audit entries of gateway and nodes: entries carry their kind, correlation id and time, and an empty payload. The escalation entry may in the source carry a stale reason.
- Random identifiers: an approval id is assumed not to be in use when it is drawn.
- Threads and locks: a body under a lock, a node of the graph and a stretch between two awaits are one step each, and a stretch reads the outside world once.
- LangGraph, asyncio, pydantic, SQLite, hashlib and hmac: replaced by the round interpreter, the step model, datatypes, a sequence of memory events and uninterpreted functions.
- LangGraphRuntime.LangGraphRuntime.Resume: a registered session is resumed only when its thread is suspended. What LangGraph does with a thread whose last round was stopped by an exception, or whose result could not be logged, is inside that library.
- Two rounds of one session at once.
- Capability.ValidateParameters: arguments are JSON values with integer numbers, so a float argument, and with it NaN, is not one of them.
- Message, world state, memory context and history channels: they only feed the reasoning model, whose answer is arbitrary here.
- The text of results and errors, beyond the reject reason, and the physical effect string.
- Constructing the gateway in PHYSICAL mode over a memory-only audit store, which the source refuses; no such gateway passes its write gate here.
- `verify_file`, registries of capabilities, the kill switch as a file and the environment variable: the last two are booleans that may change between steps.
- Adapters, Home Assistant client, command line, scripts and hardware files: an adapter is arbitrary.
- The text rules of the default reasoning model and the mock runtime: the reasoning answer is arbitrary.
