# VPN platform: verified model of the durable state machines

This project models, in Dafny, how the platform provisions and revokes VPN credentials end to
end, and the other durable state machines around it: event inboxes and consumers, outboxes,
notifications, admin actions and payments. It proves what holds in every reachable state and
over every run.

`dafny verify dfyconfig.toml` checks the whole project.

## How the model is built

* **One database transaction is one step.** Each transaction is a function from the rows before
  to the rows after (`Provisioning`, `Access`, `Subscriptions`, `Notification`, `Billing`,
  `Admin`). Where the source changes tables step by step, a class or method does the same step
  by step and is proved equal to that function (`ProvisioningStore`, `AccessStore`,
  `NotificationStore`, `Billing.Rows`, `Admin.Store`).
* **Effects are stated beside the code.** `AccessEffects`, `SubscriptionEffects`,
  `ProvisioningEffects`, `ProtocolEffects`, `FleetEffects` and `NotificationEffects` say of every
  transaction and step when it is refused, which columns change to what, and that everything else
  stays, without using the transaction's own helpers; the step-by-step methods promise the same.
* **Failures are arguments.** Which steps of a reload, a node-agent call or a consumer poll fail is
  an argument, so a contract says for every combination what must happen.
* **A run is any sequence of labels.** A label whose guard fails changes nothing, so a theorem
  over all label sequences covers all interleavings, crashes and retries.
* **Messages and row copies never disappear.** In `Protocol` the requests, replies, claims and
  row listings of workers are sets that only grow. Any later step may use any of them again:
  messages are delayed, duplicated or lost, leases expire at any time, and two workers may hold
  the same operation.
* **Layers.** `Protocol*` is one credential with its rows, agents and messages; `Fleet` and
  `Capacity` put all credentials on shared nodes; `Workers` are the worker loops on top of the
  protocol; `NodeState`, `XrayManager` and `NodeAgent` are the node side, tied to the protocol by
  `AgentRefinement`; `EndToEnd`, `JointStreams`, `RevokeAcceptance`, `RevokeHistory` and
  `CancelledRun` and `StaleRevoke` join access and provisioning; `AdminRecovery` and `AdminLateCalls` join admin
  actions and access; `OrderedInbox` with `StoreInboxes`, and `RetryOrder` with `Consumer` and
  `ConsumerServices`, are the event side.

## What turned out not to hold

The code is modelled as it is. Six expectations fail; each has its failing input and its exact
condition.

* Access does not always accept a correct revoke proof. It does so if and only if the allocation
  revision in the event equals the one access recorded (`RevokeAcceptance.RevokeAcceptedIff`); over
  history, if and only if the credential was never placed or access applied the success of the
  provisioning that the revoke ends (`RevokeHistory.RevokeAcceptedIffApplied`).
  `CancelledRun.RejectedProof` gives a run: a subscription cancelled after placement and before
  any success event leaves access in `revoking` although every node is clean.
* An admin action recorded as failed may still have recovered the credential
  (`AdminRecovery.FailedYetRecovered`). That it had no effect is guaranteed if and only if it took a
  single attempt (`AdminLateCalls.FailedMeansNoEffectIff`). A failed action without effect so far can
  still get one if and only if an attempt is unanswered and the credential is not revoked
  (`AdminLateCalls.EffectPossibleIff`).
* A revoke success of an older version is not always ignored. It is recorded if and only if the
  credential is revoking or revoked when it arrives (`StaleRevoke.StaleRecordedIff`). Otherwise the
  delivery fails, because the missing revocation reason cannot be read, and that is not a rejection:
  the record stays, and no later outcome of the credential is applied in any continuation until the
  credential is revoking again (`StaleRevoke.HeldBack`). `StaleRevoke.RenewedBeforeProof` gives a
  joint run: a period paid between the cancellation and the report of the cleaned nodes. The record
  is also the only kind that stays deferred although nothing is missing
  (`ConsumerServices.AccessFailingIff`, `ConsumerServices.AccessLeftover`).
* What a consumer leaves after retrying deferred records may depend on the order of the retries. It
  never does if and only if applying one such record never changes the decision on another that is
  still ahead, and the interleaving of the same events never decides anything
  (`RetryOrder.OrderIndependentIff`). Provisioning meets this (`ConsumerServices.ProvisioningRetriesAgree`);
  access does not (`ConsumerServices.AccessRetriesDisagree`). In `ConsumerServices.AccessOrderMatters`
  a revoke proof, a paid period and a later cancellation of one subscription were all put aside for a
  missing predecessor. Retried proof first, the proof is dead-lettered and the outcome cursor stays;
  retried last, the proof is recorded as stale and the cursor advances. (All three are ready at once
  when their predecessors were applied between two passes, for example by another instance.)
* Amount texts do not always print back: exactly the canonical ones do
  (`Amount.PrintsBackIffCanonical`); signed texts such as those in `Amount.SignedZero` and
  `Amount.SignedCents` are accepted too. Printing then parsing works exactly for amounts that are
  not negative (`Amount.RoundTripIff`).
* The node-set comparison means set equality exactly when the recorded list has no repeated node
  (`AccessStore.CompareNodesExact`, with `AccessStore.RepeatedNodeAccepted` as the failing input);
  the recorded list comes from rows with a unique key, so it never has one.

Also visible in the contracts: once `config.json` is missing after a failed rollback, no later
reload can succeed before a restart (`XrayManager.Manager.Apply`), and a provider success is
accepted only for a payment that is waiting or already succeeded, so never for one that failed
(`Billing.VerifiedAcceptedIff`).

## Model

| member | source | states |
|---|---|---|
| `Fleet.RevokedEverywhere` | services/provisioning/internal/postgres/store.go:533-580 | in any run, once a revoke-succeeded event is in the outbox and no provisioning command above its revision was recorded, no node stores the credential as present or runs it, whatever delayed, repeated or replayed messages arrive |
| `Fleet.EndpointsInstalled` | services/provisioning/internal/postgres/store.go:491-523 | in any run, while a provision-succeeded event is of the newest revision, every endpoint it names is on a node whose agent stores the credential as present at exactly that revision |
| `Fleet.Generations` | services/provisioning/internal/postgres/store.go:66-120 | in any run a credential has exactly one operation per revision up to its cursor, only the newest may be unfinished, and its allocations are none or one primary and one failover on different nodes bound to the newest operation |
| `Fleet.OutcomesInOrder` | services/provisioning/internal/postgres/store.go:558-655 | outcome events are numbered 1, 2, 3, ... with strictly increasing revisions, so at most one per operation and none for a superseded one, and a row ever leased for publication had all predecessors published |
| `Fleet.StepExtends` | services/provisioning/internal/postgres/store.go:586-606 | no step rewrites recorded operations or written events, and an event is of the newest revision when it is written |
| `Fleet.NewRevision` | services/provisioning/internal/application/service.go:42-63 | only a recorded command advances the revision, by exactly one |
| `Fleet.RunInv` | services/provisioning/internal/postgres/store.go:34-121 | the protocol invariant over rows, messages, agents and listings holds for every credential in every run |
| `ProtocolSafety.RecordKeepsInv` | services/provisioning/internal/postgres/store.go:34-121 | recording a command, with supersession and the new allocation generation, keeps the protocol invariant |
| `ProtocolSafety.EnsureKeepsInv` | services/provisioning/internal/postgres/store.go:196-335 | allocating or rebinding both nodes keeps the protocol invariant |
| `ProtocolSafety.MarkAppliedKeepsInv` | services/provisioning/internal/postgres/store.go:401-421 | marking an allocation active on a confirmed request keeps the protocol invariant |
| `ProtocolSafety.MarkRevokedKeepsInv` | services/provisioning/internal/postgres/store.go:423-456 | marking an allocation revoked on a confirmed removal keeps the invariant, including that no request in flight can bring the credential back on that node |
| `ProtocolSafety.FinishProvisionKeepsInv` | services/provisioning/internal/postgres/store.go:491-523 | completing a provisioning from rows read earlier keeps the invariant, so the event is backed by the agents |
| `ProtocolSafety.FinishRevokeKeepsInv` | services/provisioning/internal/postgres/store.go:533-548 | completing a revoke from rows read earlier keeps the invariant, so every allocation is revoked |
| `ProtocolNet.AgentNet` | services/node-agent/internal/application/service.go:61-119 | an agent that handles any request, with any failure on the way, keeps the message and agent invariant |
| `ProtocolNet.ReconcileNet` | services/provisioning/internal/application/worker.go:218-261 | requests that reconciliation may send keep the message and agent invariant |
| `ProtocolNet.RevokeCurrent` | services/node-agent/internal/application/service.go:79-90 | once the agent reached the newest revision of a revoked generation, no request still in flight can make the credential present there |
| `Capacity.CapacityConserved` | services/provisioning/internal/postgres/store.go:233-323 | in every run each node's client counter equals its number of non-revoked allocations over all credentials and stays within the usable ceiling, also across reseeding |
| `Capacity.ClampNeverActs` | services/provisioning/internal/postgres/store.go:447-454 | whenever a slot is released the counter is positive, so the clamp at zero never acts |
| `Capacity.SeedKeepsBalance` | services/provisioning/internal/postgres/store.go:668-689 | seeding any list of nodes keeps the counters and their bound |
| `Provisioning.CeilingsAgree` | services/provisioning/internal/postgres/store.go:244-289 | the integer ceiling in Go and the decimal ceiling in SQL are equal, so both checks admit the same nodes |
| `ProvisioningStore.RecordCommandRows` | services/provisioning/internal/postgres/store.go:34-121 | a replay is accepted or refused, a gap or an old sequence, revision or operation refused; otherwise older unfinished operations alone are superseded, older allocations belong to the command with the new goal and generation, and nothing else changes |
| `ProvisioningStore.SelectNodes` | services/provisioning/internal/postgres/store.go:282-309 | returns at most two unlocked nodes, each in service in the region, seen within 45 seconds and with room for one more client below its usable share, in load order, none replaceable by an earlier one; fewer than two only if no other unlocked node has all of these |
| `ProvisioningStore.ReserveRows` | services/provisioning/internal/postgres/store.go:223-257 | succeeds exactly when every row is bound to the claim and the node of each revoked one is in service in the region, seen within 45 seconds and has room for all clients reactivated on it; then each node has exactly those clients more |
| `ProvisioningStore.EnsureRows` | services/provisioning/internal/postgres/store.go:196-335 | succeeds exactly for a processing operation with a valid placement in time and two nodes to place on or two retainable rows, in particular whenever two unlocked nodes qualify; then both rows wait for their agents at the new generation, the slots are taken, and of the other tables only the allocation revision of the operation changes |
| `ProvisioningStore.CompleteOperation` | services/provisioning/internal/postgres/store.go:558-610 | a closed operation stays; refused unless it is processing, of the newest revision and not reported under this topic; otherwise it is closed as the event says with exactly that event under the next number, and nothing else changes; at most one event per operation and topic |
| `ProvisioningStore.CompleteProvisionRows` | services/provisioning/internal/postgres/store.go:491-523 | completes with the event naming both nodes and the active endpoints in row order exactly when two rows of the claim on different nodes are both active with a primary, or for a degraded success the primary alone; any other rows are refused |
| `ProvisioningStore.CompleteRevokeRows` | services/provisioning/internal/postgres/store.go:533-548 | completes with an event naming exactly the nodes of the rows and their highest allocation revision exactly when every row is bound to the claim and revoked; any other rows are refused |
| `ProvisioningStore.SeedRows` | services/provisioning/internal/postgres/store.go:668-689 | refused exactly when a seed is out of bounds; otherwise nodes without clients have the values of their last seed, new ones are in service and never seen, and all others stay |
| `ProvisioningStore.Store.ProcessCommand` | services/provisioning/internal/application/service.go:42-63 | a command is recorded only when its sequence equals its revision; other credentials are untouched |
| `ProvisioningStore.Store.ClaimOperation` | services/provisioning/internal/postgres/store.go:154-194 | an operation is leased exactly when it is unfinished and all earlier ones are finished; one attempt more is counted, no other row changes, and the worker gets a copy of that row |
| `ProvisioningStore.Store.EnsureAllocations` | services/provisioning/internal/postgres/store.go:196-335 | node counters and rows change together or not at all |
| `ProvisioningStore.Store.MarkApplied` | services/provisioning/internal/postgres/store.go:401-421 | a row is marked exactly when one of this node belongs to the operation at its revision, is to be present and not revoked, and the operation is processing or succeeded; only its state changes |
| `ProvisioningStore.Store.MarkRevoked` | services/provisioning/internal/postgres/store.go:423-456 | a row is marked exactly when one of this node belongs to the operation at its revision, is to be removed, and the operation is processing or closed; the first time its slot is given back, and nothing else changes |
| `ProvisioningEffects.ReservedMeans` | services/provisioning/internal/postgres/store.go:223-257 | reserving retained rows succeeds exactly when all are retainable and then takes one slot per revoked row |
| `ProvisioningEffects.EnsuredMeans` | services/provisioning/internal/postgres/store.go:196-335 | when the allocation transaction succeeds and everything it leaves |
| `ProvisioningEffects.CommandHas` | services/provisioning/internal/postgres/store.go:34-121 | when a command is recorded and everything it leaves |
| `ProvisioningEffects.MarksMean` | services/provisioning/internal/postgres/store.go:401-489 | when a row may be marked applied, revoked or failed, in terms of row and operation |
| `ProvisioningEffects.CompletionHas` | services/provisioning/internal/postgres/store.go:558-610 | when an operation is completed and everything that leaves |
| `ProvisioningEffects.ProvisionEventMeans` | services/provisioning/internal/postgres/store.go:491-523 | which rows justify a provisioning success, and what its event says |
| `ProvisioningEffects.RevokeEventMeans` | services/provisioning/internal/postgres/store.go:533-548 | which rows justify a revoke success, and what its event says |
| `ProvisioningEffects.SeedsHave` | services/provisioning/internal/postgres/store.go:668-689 | what seeding a list leaves of every node |
| `ProtocolEffects.EnsureStep` | services/provisioning/internal/postgres/store.go:196-335 | the allocation step of a worker binds both rows and may then ask both nodes, or changes nothing |
| `ProtocolEffects.FinishSteps` | services/provisioning/internal/postgres/store.go:491-548 | a worker completes with the rows it listed, exactly when they justify it |
| `ProtocolEffects.GiveUpStep` | services/provisioning/internal/application/worker.go:263-275 | a worker gives up only on its last attempt and reports the failure of its own operation |
| `ProtocolEffects.MarkSteps` | services/provisioning/internal/postgres/store.go:401-456 | a confirmed request marks exactly its row, and a revoked row gives its slot back once |
| `ProtocolEffects.AgentStep` | services/node-agent/internal/application/service.go:61-119 | an agent confirms a journalled request, refuses a clash and a stale revision, confirms what it stores and otherwise changes itself alone |
| `ProtocolEffects.ListStep` | services/provisioning/internal/application/worker.go:131-138 | a listing is a copy of the rows, primary first, and lets a revoke ask exactly the nodes not yet revoked |
| `ProtocolEffects.ReconcileStep` | services/provisioning/internal/postgres/store.go:743-800 | a row is reconciled exactly on a node that is not offline, a provisioning only once it succeeded |
| `FleetEffects.HealthStep` | services/provisioning/internal/postgres/store.go:711-733 | a health report decides status and time of its node, and takes exactly the nodes in service offline that were seen too long ago |
| `Workers.ProvisionOnce` | services/provisioning/internal/application/worker.go:76-129 | one attempt, with arbitrary protocol steps in between: its own steps are the allocation, the calls and marks for the rows that are not active, and the closing; without client material or a placement, or when the allocation fails, it is given up exactly on the last attempt and retried otherwise |
| `Workers.RevokeOnce` | services/provisioning/internal/application/worker.go:131-168 | one attempt likewise: the listing, the calls and marks for the rows that are not revoked, and the closing; rows of another generation and a refused mark end it |
| `Workers.CloseRevoke` | services/provisioning/internal/application/worker.go:155-168 | from the rows as listed at that moment: completed exactly when all are bound and revoked, given up exactly when all are bound, one is not revoked and the attempts are used, retried exactly when attempts remain, and nothing for foreign rows |
| `Workers.CloseProvision` | services/provisioning/internal/application/worker.go:110-128 | from the rows as listed at that moment: completed as full exactly with both active, as degraded exactly with the primary alone on the last attempt, given up exactly without a primary on the last attempt, retried exactly otherwise, and nothing for foreign rows |
| `Workers.CallAgents` | services/provisioning/internal/application/worker.go:95-109 | calls exactly the rows that are not settled, in order, marks each by its reply, and stops exactly at a refused mark |
| `Workers.CallAgent` | services/provisioning/internal/application/worker.go:99-109 | a confirmed call marks its row applied or revoked, any other marks it failed, and a mark is missing only when no row matches |
| `Workers.ReconcileOne` | services/provisioning/internal/application/worker.go:218-261 | the row is leased exactly when it may be reconciled; the agent is asked exactly when it can be read, is not ahead and does not match; the row is marked exactly when the agent matches or confirmed and the row does not say so yet, and that fails only for want of a matching row |
| `Workers.Cluster.CompleteRevoke` | services/provisioning/internal/postgres/store.go:533-580 | whenever completing a revoke writes an event, it is the success of this operation and every allocation of the credential is revoked at that moment |
| `Workers.NewestProof` | services/provisioning/internal/postgres/store.go:533-580 | in every run, a revoke success of the newest revision means that every allocation is revoked |
| `Workers.ReplayInv` | services/provisioning/internal/application/worker.go:61-74 | every state that workers can reach satisfies the protocol invariant |
| `ProtocolEvents.StepNodesFixed` | services/provisioning/internal/postgres/store.go:219-335 | once placed, a credential keeps its two nodes for good |
| `ProtocolEvents.StepShape` | services/provisioning/internal/postgres/store.go:491-548 | every success event names the two allocated nodes and the endpoints that fit its status, and every revoke event names all allocated nodes or none |
| `NodeState.CoveredForever` | services/node-agent/internal/application/service.go:71-90 | once the snapshot covers a request, the request never changes it again, whatever the journal kept or evicted |
| `NodeState.ChangeRaises` | services/node-agent/internal/application/service.go:71-103 | the snapshot changes exactly for unjournalled requests it does not cover, and then no revision decreases and no entry disappears |
| `NodeState.Evict` | services/node-agent/internal/state/store.go:58-71 | eviction keeps entries unchanged, keeps none older than an evicted one and reaches the limit exactly when it was exceeded |
| `NodeAgent.Agent.Apply` | services/node-agent/internal/application/service.go:61-119 | the answer for every request and every combination of failing steps, acknowledged exactly when all steps of a change work; then the stored snapshot has exactly the request's revision, presence and client material, every other entry unchanged and the next configuration revision; memory equals the stored snapshot after every call, revisions never decrease, a covered request changes nothing, and the node keeps running what the agent believes in unless it reports a broken rollback |
| `NodeAgent.Agent.RecordJournal` | services/node-agent/internal/application/service.go:150-158 | a failed journal write leaves the file as it was and the new entry out of memory; a successful one leaves both equal |
| `NodeAgent.Agent.Restart` | services/node-agent/internal/application/service.go:38-59 | a restart finds the snapshot that was in memory, so what was acknowledged survives |
| `NodeState.InstallStores` | services/node-agent/internal/application/service.go:91-102 | a change stores the request and nothing else under the next configuration revision |
| `AgentRefinement.StoredWasAsked` | services/node-agent/internal/application/service.go:91-102 | in every run of an agent, what it stores for a credential is the revision, presence and client material of one valid request it was called with, so a present credential never lacks its material |
| `XrayManager.Manager.Apply` | services/node-agent/internal/xray/manager.go:92-140 | for every combination of failing steps: the candidate takes over exactly when nothing on its way fails, the previous configuration comes back exactly when it exists and no step of bringing it back fails, and a failed rollback means that such a step failed, with nothing running and the previous file still on disk |
| `XrayManager.Manager.Start` | services/node-agent/internal/xray/manager.go:60-83 | installs and runs the given configuration exactly when no step fails |
| `AgentRefinement.CallRefines` | services/node-agent/internal/application/service.go:61-119 | for every credential, a call of the agent is one protocol step or none, whichever credential the call was about, and an acknowledged request counts as confirmed |
| `AgentRefinement.RestartRefines` | services/node-agent/internal/application/service.go:38-59 | a restart of the agent is a protocol reload that comes up or not |
| `AgentRefinement.CrashRefines` | services/node-agent/internal/xray/manager.go:226-239 | a process that dies is a protocol reload that does not come up |
| `AgentRefinement.RunRefines` | services/node-agent/internal/application/service.go:38-119 | from its first start, through any calls, restarts, crashes and steps elsewhere, the agent is described by a run of the protocol, as long as workers sent what it was asked |
| `AccessSafety.RunInv` | services/access/internal/postgres/store.go:69-500 | in every run of a credential: history, status, allocation binding, profile and tokens are consistent |
| `AccessTheorems.StatusFollowsNewestOperation` | services/access/internal/postgres/store.go:264-500 | a credential at version v has exactly one operation and one command per revision 1, ..., v, and its status is determined by operation v |
| `AccessTheorems.AllocationBinding` | services/access/internal/postgres/store.go:304-373 | allocation revision 0 while provisioning or failed, the version while serving, the one of the current revoke operation while revoking; a non-zero one names a succeeded provisioning with two nodes |
| `AccessTheorems.ProfileNeverEmpty` | services/access/internal/postgres/store.go:690-731 | an active credential has exactly one primary and one failover endpoint, a degraded one exactly one primary, on assigned nodes of the current allocation, so the empty profile case is unreachable |
| `AccessTheorems.OneLiveToken` | services/access/internal/postgres/store.go:502-579 | at most one live token, only while serving, expiring with the entitlement |
| `AccessTheorems.EntitlementNeverDecreases` | services/access/internal/postgres/store.go:123-156 | no transaction shortens the entitlement, and only a period event lengthens it |
| `AccessTheorems.CommandsOnlyAppended` | services/access/internal/postgres/store.go:955-967 | commands are only appended, at most one per transaction |
| `AccessTheorems.RevokedForever` | services/access/internal/postgres/store.go:385-500 | revoked is absorbing: whatever follows, credential, operations, tokens and commands stay as they are |
| `AccessTheorems.RevokedOnlyWithProof` | services/access/internal/postgres/store.go:437-500 | a credential becomes revoked only through a revoke success of its version that reports exactly the nodes of the current allocation |
| `AccessTheorems.SameNodeSetMeaning` | services/access/internal/postgres/store.go:1076-1093 | the comparison accepts exactly the duplicate-free listings of the recorded node set |
| `AccessStore.CompareNodes` | services/access/internal/postgres/store.go:1076-1093 | the loops decide length, repeated reported nodes and missing recorded nodes |
| `AccessStore.CompareNodesExact` | services/access/internal/postgres/store.go:1076-1093 | an accepted comparison means equal sets exactly when the recorded list has no repeated node |
| `AccessStore.RepeatedNodeAccepted` | services/access/internal/postgres/store.go:1076-1093 | a recorded list with a repeated node lets a different set through |
| `AccessStore.ValidateProvisionSucceeded` | services/access/internal/application/service.go:238-272 | the loops accept exactly the success events with two assigned nodes, distinct assigned endpoints and the roles that fit the status |
| `AccessStore.ReplaceProvisionSnapshots` | services/access/internal/postgres/store.go:1025-1051 | the two loops leave exactly the assigned nodes of this revision and the listed endpoints |
| `AccessStore.PeriodRows` | services/access/internal/postgres/store.go:90-161 | fails exactly when a restart reuses an operation id; the entitlement becomes the later of both; a restart waits for provisioning at the next version with one command and an empty profile, an extension lengthens exactly the live tokens, and nothing else changes; the credential invariant is kept |
| `AccessStore.TerminalRows` | services/access/internal/postgres/store.go:219-262 | ignored exactly for an early expiry or a credential already being revoked; otherwise revoking at the next version with one revoke command for the current allocation, exactly the live tokens withdrawn and nothing else changed; the credential invariant is kept |
| `AccessStore.LateProvisionRows` | services/access/internal/postgres/store.go:304-333 | a success while revoking is ignored, noted, or becomes the allocation that exactly the open revoke of this version must prove removed, and is refused exactly when there is none |
| `AccessStore.ProvisionSucceededRows` | services/access/internal/postgres/store.go:264-383 | the success of the open newest provisioning serves the credential, as reported and without a new command, exactly before its entitlement ends; from then on it is revoked with one command for the applied allocation and no live token; all other cases are ignored, refused or late |
| `AccessStore.OperationFailedRows` | services/access/internal/postgres/store.go:385-435 | refused exactly when it names no operation, effective exactly when terminal for the open newest one; then that operation alone is broken, a provisioning leaves the credential failed and a revoke leaves it revoking, and the credential invariant is kept |
| `AccessStore.RevokeSucceededRows` | services/access/internal/postgres/store.go:437-500 | refused without operation, failing without a revocation reason, ignored when stale, and otherwise accepted exactly when it names the bound allocation and lists its recorded nodes, each once |
| `AccessStore.OutcomeRows` | services/access/internal/postgres/store.go:875-949 | a malformed, old or changed outcome is refused, an early one is a gap, a recorded one accepted again, and the next one has exactly the effect of its kind |
| `AccessStore.TokenRows` | services/access/internal/postgres/store.go:502-579 | a token is issued exactly to a served credential within its entitlement: the first one exactly when none is live, a rotation exactly when one is, which alone is rotated out |
| `AccessEffects.ServedIffEntitled` | services/access/internal/postgres/store.go:334-373 | the success of the open newest provisioning of a consistent credential serves it exactly before the entitlement ends |
| `AccessEffects.ServedInTime` | services/access/internal/postgres/store.go:343-373 | in every run, a step makes a credential served only by a provisioning success that arrives before its entitlement ends, of the current version and allocation, active exactly when fully ready |
| `AccessEffects.SuccessHas` | services/access/internal/postgres/store.go:264-383 | every case of a provisioning success and everything it leaves |
| `AccessEffects.RevokeHas` | services/access/internal/postgres/store.go:437-500 | every case of a revoke success and everything it leaves |
| `AccessEffects.OutcomeHas` | services/access/internal/postgres/store.go:875-949 | every case of a delivered outcome |
| `AccessEffects.PeriodHas` | services/access/internal/postgres/store.go:90-161 | every case of a period and everything it leaves |
| `AccessEffects.TerminalHas` | services/access/internal/postgres/store.go:219-262 | every case of the end of a subscription and everything it leaves |
| `AccessEffects.RecoveryHas` | services/access/internal/postgres/store.go:640-688 | a recovery provisions again exactly a failed credential within its entitlement |
| `AccessStore.Store.ApplyPeriod` | services/access/internal/postgres/store.go:69-161 | only the event in turn of the subscription's owner has an effect: it is recorded, and the current credential restarts or is extended or a new one waits for its first provisioning; a refusal leaves every table as it was |
| `AccessStore.Store.ApplyTerminal` | services/access/internal/postgres/store.go:206-262 | only the event in turn has an effect: it is recorded and the current credential, if any, is revoked as the end of its subscription says; a refusal leaves every table as it was |
| `AccessStore.Store.ProcessOutcome` | services/access/internal/application/service.go:58-141 | changes the rows of the one credential as the outcome says, or nothing, and keeps the database invariant |
| `AccessStore.Store.RecoverProvisioning` | services/access/internal/postgres/store.go:617-688 | a known key is replayed or refused without effect; a new one recovers the credential and is recorded with its operation and revision, or changes nothing |
| `SubscriptionEffects.PeriodCallHas` | services/access/internal/postgres/store.go:69-161 | every case of a period event over the whole database |
| `SubscriptionEffects.TerminalCallHas` | services/access/internal/postgres/store.go:206-262 | every case of a terminal event over the whole database |
| `SubscriptionEffects.RecoveryAnswers` | services/access/internal/postgres/store.go:617-688 | a recovery is accepted exactly as the repeated request, or for a failed credential within its entitlement |
| `SubscriptionEffects.LifecycleAnswers` | services/access/internal/postgres/store.go:834-873 | when a lifecycle event is a gap, refused or accepted again |
| `Subscriptions.HistoryInv` | services/access/internal/postgres/store.go:90-161 | in every history all credentials are consistent and no subscription has two credentials that are not revoked |
| `Subscriptions.RecoveredOnce` | services/access/internal/postgres/store.go:617-688 | however often a recovery request is sent, it takes effect at most once |
| `Subscriptions.RecoveryRecorded` | services/access/internal/postgres/store.go:674-688 | a recovery record always names an operation the credential has, of that kind and revision |
| `EndToEnd.RevokedMeansGone` | services/access/internal/postgres/store.go:437-500 | in every joint run of access and provisioning, while access shows a credential as revoked no node stores it as present or runs it |
| `EndToEnd.ServedMeansInstalled` | services/access/internal/postgres/store.go:690-731 | in every joint run, every endpoint of a served profile is on a node whose agent stores the credential as present at exactly the current version |
| `ServedRun.WholeLife` | services/access/internal/postgres/store.go:370-500 | the guarantees are about runs that happen: a concrete joint run in which the credential is installed on two nodes and served, and a continuation in which it is cancelled, removed and revoked |
| `RevokeAcceptance.RevokeAcceptedIff` | services/access/internal/postgres/store.go:472-486 | in every joint run, a revoke success of the current version that arrives in order is accepted exactly when its allocation revision is the recorded one |
| `RevokeHistory.RevokeAcceptedIffApplied` | services/access/internal/postgres/store.go:437-500 | in every joint run, such a revoke success is accepted exactly when the credential was never placed or access applied the success of the provisioning that the revoke ends |
| `RevokeAcceptance.OutcomesPassChecks` | services/access/internal/application/service.go:238-272 | every outcome that provisioning writes passes the contract checks of access |
| `RevokeAcceptance.FailureArrives` | services/access/internal/postgres/store.go:385-435 | in every joint run, the failure of the current version that arrives in order breaks its operation and leaves the credential failed, or still being revoked |
| `CancelledRun.RejectedProof` | services/access/internal/postgres/store.go:472-474 | a concrete run after which no node stores or runs the credential and access still rejects the proof |
| `StoreInboxes.OutcomesAppliedInOrder` | services/access/internal/postgres/store.go:875-949 | in every run of a credential, with any other transactions in between, the outcomes applied are exactly sequence 1, ..., cursor, once each and in order, and they are what the inbox holds |
| `StoreInboxes.SameWithoutRepeats` | services/access/internal/postgres/store.go:875-949 | duplicate, early, rejected and stale deliveries leave no trace: the run without them ends in the same state |
| `StoreInboxes.CommandsAppliedInOrder` | services/provisioning/internal/postgres/store.go:43-119 | in every run of all credentials, the commands recorded for one are exactly sequence 1, ..., cursor, once each and in order, and they are what the inbox holds |
| `JointStreams.RunStreams` | services/access/internal/postgres/store.go:964-967 | in every joint run access applied exactly the first rows of the provisioning outbox, and provisioning recorded exactly the first commands of access, one each and in order |
| `StoreInboxes.OutcomeRedelivered` | services/access/internal/postgres/store.go:920-949 | in every run, redelivering a recorded outcome succeeds and changes nothing |
| `StoreInboxes.CommandRedelivered` | services/provisioning/internal/postgres/store.go:43-63 | in every run, redelivering a recorded command succeeds and changes nothing |
| `Subscriptions.LifecycleInOrder` | services/access/internal/postgres/store.go:834-873 | in every history the lifecycle events applied for a subscription are exactly sequence 1, ..., cursor, once each and in order, and they are what the inbox holds |
| `Subscriptions.LifecycleRedelivered` | services/access/internal/postgres/store.go:834-873 | in every history, redelivering a recorded lifecycle event succeeds and changes nothing |
| `Subscriptions.OwnerCheckNeverFails` | services/access/internal/postgres/store.go:120-122 | in every history the owner check on an existing credential never fails after the cursor check passed |
| `AccessStore.Store.PrepareLifecycle` | services/access/internal/postgres/store.go:834-873 | decides owner, gap, repeated event and cursor in the order of the source |
| `AccessStore.Store.ApplyGrace` | services/access/internal/postgres/store.go:190-204 | a grace event advances the cursor and nothing else |
| `OrderedInbox.PrefixOfStream` | services/access/internal/postgres/store.go:834-873 | the applied events are a prefix of what the producer numbered |
| `OrderedInbox.MissingEventBlocks` | services/access/internal/postgres/store.go:856-858 | a missing event holds back everything after it |
| `OrderedInbox.OrdersAgree` | services/provisioning/internal/postgres/store.go:43-75 | checking the inbox row first or the gap first commits the same states in the same cases |
| `InboxInstances.OutcomeIsDelivery` | services/access/internal/postgres/store.go:875-918 | applying an outcome is a delivery to the ordered inbox, with the same result and the same error |
| `InboxInstances.CommandIsDelivery` | services/provisioning/internal/postgres/store.go:43-119 | recording a command is a delivery to the ordered inbox, with the same result and the same error |
| `StaleRevoke.StaleRecordedIff` | services/access/internal/postgres/store.go:453-471 | in every joint run, a revoke success of an older version that is next in line is recorded, changing nothing else, exactly when the credential is revoking or revoked; otherwise the delivery fails without being a rejection |
| `StaleRevoke.HeldBack` | services/access/internal/postgres/store.go:453-468 | in every continuation in which the credential is neither revoking nor revoked, no outcome is applied while a revoke success is next, and a restarted credential is not served |
| `StaleRevoke.RenewedBeforeProof` | services/access/migrations/00004_stage7_user_facts_and_admin_actions.sql:28-32 | a concrete joint run that gets there: restarted, at version 3, every delivery of the report of revision 2 fails |
| `RetryOrder.OrderIndependentIff` | services/access/internal/kafka/consumer.go:244-292 | for any service that decides on its durable state: what retries leave of records that were put aside as early never depends on the order of the tries, if and only if applying one of them never changes the decision on another that is ahead and no interleaving of the same events decides anything |
| `RetryOrder.AgreeIfGood` | services/access/internal/kafka/consumer.go:244-292 | the same at one point: if the two conditions hold for the records kept there, any two settled orders leave the same records and cursors |
| `ConsumerServices.ProvisioningRetriesAgree` | services/provisioning/internal/kafka/consumer.go:193-235 | from every point, the provisioning consumer leaves the same records and cursors whatever order it retries them in |
| `ConsumerServices.ProvisioningLeftover` | services/provisioning/internal/postgres/store.go:43-91 | what it still keeps once retries settled waits for a predecessor |
| `ConsumerServices.AccessLawful` | services/access/internal/postgres/store.go:834-918 | in any access database with consistent inboxes, an accepted event is the next of its aggregate and moves that cursor alone, a repeated one changes nothing, and one below the cursor is decided |
| `ConsumerServices.AccessFailingIff` | services/access/internal/application/service.go:327-336 | a handler of access fails without a gap or a rejection exactly for the next outcome being a revoke success of a known operation of a credential neither revoking nor revoked, unless a generated identifier is in use |
| `ConsumerServices.AccessLeftover` | services/access/internal/kafka/consumer.go:244-292 | of what the access consumer still keeps once retries settled, exactly those records miss no predecessor |
| `ConsumerServices.AccessOrderMatters` | services/access/internal/application/service.go:327-336 | after a concrete history, three records that were all early on the way are kept; retried proof first the outcome cursor stays at 1, retried proof last it becomes 2 |
| `ConsumerServices.AccessRetriesDisagree` | services/access/internal/postgres/store.go:453-474 | so the access consumer is not order independent, and the condition that fails is the first: applying a period changes the decision on a proof |
| `Consumer.Consumer.RetryOne` | services/access/internal/kafka/consumer.go:247-291 | a kept record leaves exactly when the service decides on it and neither the handler nor the commit fails |
| `Consumer.Consumer.RetryDeferred` | services/access/internal/kafka/consumer.go:244-292 | the retry loop terminates, tries every kept record under the faults that hit it, and without faults leaves exactly the records that miss a predecessor or fail without being rejected |
| `Consumer.Consumer.PollOnce` | services/access/internal/kafka/consumer.go:68-134 | what one poll does for every verdict and every fault: a gap is put aside, a failure, a failed commit or a cancelled context rewinds with nothing committed, a decided record is committed and followed by retries; no committed offset passes a record that was neither processed nor dead-lettered or moves back, and paused partitions are exactly the deferred ones |
| `Consumer.Consumer.DeferGap` | services/provisioning/internal/kafka/consumer.go:183-191 | a gap record is kept, its partition paused and nothing committed |
| `Outbox.LeasedInOrder` | services/access/internal/postgres/store.go:772-825 | a row ever leased for publication had all lower rows published |
| `Outbox.FirstSendsInOrder` | services/provisioning/internal/postgres/store.go:612-666 | before any send of a row, each lower row of its aggregate had been sent |
| `Outbox.OneRowInTurn` | services/access/internal/postgres/store.go:772-800 | while a row is unpublished, exactly the lowest such row may be leased, so publication is never stuck |
| `OutboxInstance.PublishIsOutboxStep` | services/provisioning/internal/postgres/store.go:612-666 | leasing, completing and retrying a provisioning outcome are the steps of that outbox |
| `OutboxInstance.CompleteIsAppend` | services/provisioning/internal/postgres/store.go:586-600 | writing a provisioning outcome appends a row to that outbox |
| `NotificationSafety.ProcessingInOrder` | services/notification/internal/postgres/store.go:212-259 | while a job is processing no lower job of its stream is pending, waiting for retry or processing |
| `NotificationSafety.ClosingsInOrder` | services/notification/internal/postgres/store.go:277-329 | all claims of one stream, however they end, close in non-decreasing sequence, each once |
| `NotificationSafety.SupersededForever` | services/notification/internal/postgres/store.go:107-153 | once a superseding job is recorded no lower job of its stream is ever pending or waiting again |
| `NotificationSafety.RecordedInOrder` | services/notification/internal/postgres/store.go:43-101 | for any deliveries, the events recorded for a subscription or access stream are exactly sequence 1, ..., cursor, in order |
| `NotificationSafety.RunInv` | services/notification/internal/postgres/store.go:32-158 | the delivery barrier, stream positions, claims and closed claims are consistent in every run |
| `NotificationSafety.RetryInv` | services/notification/internal/postgres/store.go:349-413 | a manual retry keeps the barrier because it needs a job without successor |
| `NotificationSafety.IntentShape` | services/notification/internal/application/service.go:57-163 | payment streams have the two positions payment and refund, and exactly the refund supersedes |
| `NotificationSafety.AcceptedOnce` | services/notification/internal/postgres/store.go:43-54 | an accepted event delivered again in any later state succeeds and changes nothing, and is refused under another payload |
| `NotificationSafety.KeyRecordedOnce` | services/notification/migrations/00001_notification_schema.sql:49-50 | in every run each payment, each refund and each stream position is recorded at most once, under whatever event ids |
| `NotificationSafety.GivenUpForever` | services/notification/internal/postgres/store.go:277-329 | once a claim was closed, reset or taken over, in every continuation no job holds it, and closing it is refused and changes nothing |
| `NotificationStore.Store.RecordEvent` | services/notification/internal/postgres/store.go:32-158 | every refusal, and otherwise exactly one inbox row, key and cursor step; the new job is pending unless covered or overtaken, a superseding event suppresses exactly the waiting jobs below it, and no other job changes; the barrier is kept |
| `NotificationStore.Store.ClaimJob` | services/notification/internal/postgres/store.go:212-259 | claims exactly an open job with every lower one of its stream closed, under an unused claim; one attempt more is counted and nothing else changes |
| `NotificationStore.Store.FinishClaim` | services/notification/internal/postgres/store.go:277-329 | closes exactly the job held under the claim, suppressing it instead of retrying or failing it exactly when it was overtaken, and nothing else changes |
| `NotificationStore.Store.RequestRetry` | services/notification/internal/postgres/store.go:349-413 | resets exactly a failed or waiting job without successor, once per key, and nothing else changes |
| `NotificationEffects.JobsHave` | services/notification/internal/postgres/store.go:103-153 | which job an event inserts, in which status, and which jobs it suppresses |
| `NotificationEffects.KeyMeans` | services/notification/migrations/00001_notification_schema.sql:49-50 | two events share an inbox key exactly when they are of one payment, one refund or one position |
| `Admin.RunAudit` | services/admin/internal/postgres/store.go:110-286 | in every run the status is the one of the last audit entry and attempts equal the attempted and retrying entries |
| `Admin.ClosingEntryLast` | services/admin/internal/postgres/store.go:180-237 | a succeeded or failed entry is the last one and nothing changes after it |
| `Admin.StaleClaimHarmless` | services/admin/internal/postgres/store.go:198-220 | a claim that is not the current one changes nothing |
| `Admin.Store.StartAttempt` | services/admin/internal/postgres/store.go:110-178 | an attempt starts exactly unless the action is closed or a lease is active, with the next number, a new claim and its audit entry |
| `Admin.Store.FinishAttempt` | services/admin/internal/postgres/store.go:180-237 | only the current claim closes the attempt, with the reported status and entry; a closed action stays |
| `Admin.Store.LoseOutcome` | services/admin/internal/postgres/store.go:239-286 | only the current claim leaves the outcome unknown, with its entry; a closed action stays |
| `AdminRecovery.AtMostOneEffect` | services/admin/internal/application/service.go:50-114 | however many attempts an action takes, access recovers the credential at most once, and exactly once if the action succeeded |
| `AdminLateCalls.FailedMeansNoEffectIff` | services/admin/internal/application/service.go:84-104 | for every number of attempts: a failed action is guaranteed to have had no effect exactly when it took one attempt |
| `AdminLateCalls.EffectPossibleIff` | services/admin/internal/application/service.go:84-104 | from a failed action without effect, some continuation has one exactly when fewer calls were refused than attempts made and the credential is not revoked |
| `AdminRecovery.FailedYetRecovered` | services/admin/internal/application/service.go:84-104 | a concrete run in which a failed action did recover the credential |
| `Billing.AlwaysCoupled` | services/billing/internal/postgres/store.go:126-289 | in every run payment and order status go together and there is at most one terminal event, a success with the order's amount exactly when the order is paid |
| `Billing.FixedForever` | services/billing/migrations/00001_billing_schema.sql:77-105 | provider key, provider id once set, amount, written events, a paid order and a closed payment never change |
| `Billing.LateSuccessRefused` | services/billing/internal/postgres/store.go:374-426 | a provider success for a failed payment is refused and leaves order and events as they were |
| `Billing.VerifiedAcceptedIff` | services/billing/internal/postgres/store.go:374-426 | in every run, a verified terminal status is accepted exactly when the payment is waiting for verification, pending or already closed that way, and then the order and its one event follow |
| `Billing.Rows.CreatePayment` | services/billing/internal/postgres/store.go:126-194 | accepted exactly for an open order; the first time it becomes pending with one new payment of its amount, later nothing changes |
| `Billing.Rows.PrepareProviderCreate` | services/billing/internal/postgres/store.go:204-244 | the provider may be called exactly for a payment it does not know before the deadline; exactly from the deadline on such a payment fails with its order canceled, and nothing else changes |
| `Billing.Rows.ApplyProviderCreate` | services/billing/internal/postgres/store.go:246-261 | accepted exactly for an open payment without another provider id and not back from pending; it sets the id and the status |
| `Billing.Rows.MarkAmbiguous` | services/billing/internal/postgres/store.go:263-271 | a created payment waits for verification, and any other stays |
| `Billing.Rows.MarkFailed` | services/billing/internal/postgres/store.go:273-289 | an open payment fails with its order canceled, and any other stays |
| `Billing.Rows.ApplyVerified` | services/billing/internal/postgres/store.go:374-426 | accepted exactly as the status allows; payment, order and the one event move together, and a refusal changes nothing |
| `Billing.TriggersMean` | services/billing/migrations/00001_billing_schema.sql:28-106 | which order and payment moves the triggers admit |
| `Amount.RoundTrip` | services/billing/internal/yookassa/client.go:190-211 | every amount from 0 to the largest 64-bit value survives printing and parsing |
| `Amount.RoundTripIff` | services/billing/internal/yookassa/client.go:190-211 | over all 64-bit amounts, exactly the non-negative ones survive |
| `Amount.ParseNeverWraps` | services/billing/internal/yookassa/client.go:207-210 | the overflow guard admits exactly the amounts that fit and no intermediate result wraps |
| `Amount.PrintsBackIffCanonical` | services/billing/internal/yookassa/client.go:190-211 | an accepted text is in range and prints back exactly when it is canonical |
| `Amount.SignedZero` | services/billing/internal/yookassa/client.go:199-202 | a minus sign before zero is accepted |
| `Amount.SignedCents` | services/billing/internal/yookassa/client.go:203-206 | a plus sign followed by one digit is accepted as cents |

## Left out

- Clocks and leases: a lease may expire at any moment and any row may be due, which allows more runs than the source.
- Rows are kept per credential, allocations per role, and the inbox per aggregate; clashes of event or operation ids across credentials are not modelled.
- The choice of nodes in the protocol is any two eligible nodes; the load order is proved for the placement query alone.
- Reconciliation claim ids, dead-letter replay, health snapshots, failure reasons, correlation ids, topics, partitions and offsets stored with events.
- Plan snapshots, encryption, token hashes, URL idempotency keys and the profile text.
- JSON, UUID shape and envelope checks: events arrive decoded.
- Hashes are treated as injective and generated identifiers as fresh.
- READ COMMITTED interleavings inside one transaction and SKIP LOCKED fairness: transactions are atomic.
- Kafka rebalances, and more than one record per poll: the assignment is fixed and paused partitions are not returned.
- Progress: nothing says that a message arrives or that an operation finishes.
- The payment SLI projection of access, whose conflict can refuse a period event.
- Orders, idempotency keys and webhooks of billing beyond one order with its payment, and provider validation of amounts.
- Listing, support snapshots, retention, roles and permissions of the admin service, and the check of owner results.
- A process on a missing configuration file is taken never to become healthy.
- Retry delays, metrics, logging, HTTP, TLS and configuration.
- Workers.RevokeOnce: reads of the store succeed; a failed read only leads to the retry or the giving up that is modelled for other failures.
- Workers.ProvisionOnce: whether client material and a placement are available and valid is an argument, because those services are not part of this model.
- Consumer.Consumer.PollOnce: which partition is fetched next and which calls fail are arguments.
