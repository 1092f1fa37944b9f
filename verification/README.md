# AIRIV Sentinel, modelled and proved

This project models the parts of AIRIV Sentinel that decide whether something happens in
the outside world, and at most once, together with the parts that keep the evidence of
it. To verify it, run `dafny verify dfyconfig.toml`.

**The effect protocol** (`JournalDisk`, `EffectProtocol`, `EffectInvariant`,
`EffectSteps`, `EffectTheorems`, `EffectAdmission`, `EffectOverlap`, `EffectStanding`,
`Journal`, `JournalRuns`). Any number of callers of `execute` and `execute_bound` share
one disk: permits published by a hard link, identities published by a directory rename,
records replaced as a whole. Callers crash between any two disk operations, restart
sweeps run at any time, and a transition is a load and, later, a write, so that other
steps come between. On the whole of that: the executor is called at most once per
execution id and, on the bound path, per run. `Journal` is the same code as one process
runs it, with the sweep, the polling loop and the methods on a disk that they update;
`JournalRuns` proves that an undisturbed run of the protocol is exactly that.

**Three ledgers, one register** (`SingleUse`, `JournalRefinesRegister`, `AgentBoundary`,
`AgentLedger`, `AgentLedgerProofs`, `AgentOverlap`, `AgentTelling`, `DeliveryLedger`,
`DeliveryRuns`). The remediation journal, the AI execution ledger and the delivery
ledger are three implementations of one abstract register: a key is free, then owned,
then done, and only the owner performs the effect. They differ in what they do with a
key that is owned and not done: wait, write UNKNOWN, reject.

**The approval chain** (`ApprovalLedger`, `ApprovalLedgerProofs`, `ApprovalPoison`,
`ApprovalRuns`, `ApprovalStores`, `Fingerprints`, `BoundPolicy`, `ApprovalChain`,
`LedgerMeaning`, `VerifiedExecution`). Issuing an approval, consuming an activation,
building an authorization context from what the two ledgers hold, asking the policy, and
executing through the effect protocol, all interleaved. One approval leads to at most
one external effect. `VerifiedExecution` is one verified restart, from the policy's
answer to the observation afterwards.

**Evidence** (`CanonicalJson`, `JsonText`, `KeyOrder`, `StableSort`, `Timeline`,
`TimelineTheorems`, `TimelineMeaning`, `EvidenceQuery`, `EvidenceMeaning`,
`EvidenceAudit`, `AuditMeaning`). Canonical JSON determines its value; the sealed
timeline is a function of the events as far as their sort keys tell them apart; its
digest determines it; and the digest of the store-wide audit determines the timelines of
every incident.

**The activation lease** (`ActivationLease`, `LeaseTheorems`, `LeaseOrders`): four
shared containers changed in place and put back, on the heap, for any number of leases,
nested or in any other order.

**The mission scheduler** (`MissionQueue`, `Scheduler`, `SchedulerFile`,
`SchedulerTheorems`): repeated cycles compute a least fixpoint over the dependency
graph.

**The rest**: the reliability ledger and the runtime cycle that keeps it
(`Reliability`), the two bootstrap executors against an adversarial host (`Bootstrap`,
`BootstrapExecutors`), and the delivery projection (`DeliveryProjection`,
`DeliveryMeaning`).

Where the properties meet the code:

- The code can lose a recorded verdict when two transitions of one identity overlap
  (`EffectOverlap.RaceLosesARecord`, reachable by `RaceIsReachable`), although the
  record is documented as durable. Exactly when a finished record is safe from this is
  `EffectStanding.FinishedStands`. At-most-once does not depend on it.
- `recover_interrupted` stops with an exception at a claim that crashed before its
  rename, and leaves the remaining RUNNING records as they are
  (`Journal.LeftoverStopsRecovery`); exactly when it completes is `Journal.RecoveryIsExact`.
- In the AI ledger a late `finalize` can replace an UNKNOWN that a replay wrote, which
  the comment beside that call rules out (`AgentOverlap.LateFinalizeBuriesUnknown`);
  exactly when it cannot is `AgentOverlap.UnknownStays`.
- A generic effect whose names carry blanks around them is refused with its own
  authorization (`Fingerprints.AuthorizationFitsOneEffect`, `PaddedEffectIsRefused`).
- Events with equal four-part sort keys make the timeline depend on the order of the
  input (`TimelineTheorems.OrderFreeExactlyWhenUnambiguous`).
- Closing a lease whose activation failed puts its old snapshot back a second time and
  can undo another lease (`LeaseOrders.LateClose`); leases that share a policy or a
  catalog must be closed last in, first out, others need not
  (`LeaseOrders.FirstInFirstOut`). An interrupt that is no Exception skips the rollback
  (`LeaseOrders.InterruptedUntilClosed`).
- A runtime cycle stays open, and blocks all later ones, if printing a failure on its
  way out raises (`Reliability.ClosesUnlessPrintingFails`).

SHA-256 is a function; that it is injective, or writes 64 hexadecimal digits, is a
premise where a lemma needs it, and no lemma needs both. Time is an integer. File operations are the atomic
ones: link, rename, exclusive create, replace, read.

## Model

| member | source | states |
|---|---|---|
| EffectSteps.StepKeeps | sentinel/remediation_execution_identity.py:656-1012 | Every step of every caller, crash and sweep keeps the protocol's invariant |
| EffectSteps.RunsKeep | sentinel/remediation_execution_identity.py:152-1012 | So does every run, over any interleaving |
| EffectSteps.GateNeverDeclines | sentinel/remediation_gate.py:31-113 | A caller that got as far as the gate is never turned away by it |
| EffectTheorems.AtMostOnce | sentinel/remediation_execution_identity.py:526-568 | In every run with crashes, sweeps and half-done transitions, no two executor calls share an execution id and no two bound calls share a run |
| EffectTheorems.CallFollowsPermitIdentityRunning | sentinel/remediation_execution_identity.py:857-925 | Before every executor call its own caller put RUNNING on disk, before that the identity, and on the bound path before that the permit |
| EffectTheorems.ReplayNeverCalls | sentinel/remediation_execution_identity.py:862-912 | A caller answered with a replayed permit or identity never called the executor |
| EffectAdmission.CalledWasAuthorized | sentinel/remediation_execution_identity.py:796-848 | In every run whatever was called was allowed, and a bound call by an authorization and a decision that name its effect field by field, on a target that may be acted on |
| EffectAdmission.IdentityNames | sentinel/remediation_execution_identity.py:82-95 | A text names an identity exactly if, without blanks at its ends, it is not empty, no dotted path, and made of letters, digits, dots, underscores, colons and hyphens |
| EffectAdmission.StripTrims | sentinel/remediation_execution_identity.py:82-95 | What stripping leaves is the text without the blanks at its ends, no more and no less |
| EffectAdmission.NobodyIsStuck | sentinel/remediation_execution_identity.py:656-1012 | From every reachable state each caller that has not ended can take a step, and can crash |
| EffectAdmission.LateOwnersRaise | sentinel/remediation_execution_identity.py:674-751 | An owner that finds its record UNKNOWN changes nothing: before the call it raises at once, after it the exception is handled and raised |
| EffectTheorems.BoundAnswerIsForItsEffect | sentinel/remediation_execution_identity.py:764-794 | Every answer of the bound path is a record of exactly the effect asked for; a replay hands out what the record holds, possibly nothing |
| EffectTheorems.PermitsAndIdentitiesLast | sentinel/remediation_execution_identity.py:292-341 | In every run permits never change or go, records never go and keep their identity fields, and a won permit or identity stays with its winner |
| EffectTheorems.VerdictTellsWhatHappened | sentinel/remediation_execution_identity.py:950-986 | A recorded verdict belongs to an executor call by the identity's winner, success is exit code zero, and on the bound path the recorded command is the authorized one |
| EffectOverlap.RaceLosesARecord | sentinel/remediation_execution_identity.py:308-341 | When an owner's write and a sweep's write overlap, one order erases a reported verdict and the other turns UNKNOWN into a verdict |
| EffectOverlap.RaceIsReachable | sentinel/remediation_execution_identity.py:308-341 | A concrete run without any crash leads from the empty disk to such an overlap |
| EffectOverlap.SeparateTransitionsAreGuarded | sentinel/remediation_execution_identity.py:308-341 | In runs whose transitions of one identity do not overlap every write is guarded, and at every step and over the whole run no rank falls, no terminal record changes and every permit stays |
| EffectStanding.FinishedStands | sentinel/remediation_execution_identity.py:308-341 | In every reachable state a finished record survives every continuation if and only if no transition and no sweep that loaded it before is still about to write something else |
| EffectStanding.DiskEvolvesForGood | sentinel/remediation_execution_identity.py:308-341 | From a reachable state on, whatever happens, no rank falls below what it is now, no finished record changes and no permit goes if and only if no different write is pending over a finished record |
| EffectStanding.FinishedStandsAfterSeparateRuns | sentinel/remediation_execution_identity.py:308-341 | Where transitions of one identity never overlapped so far, every finished record stays for good, whatever comes afterwards |
| EffectStanding.OvertakenOwnerReturns | sentinel/remediation_execution_identity.py:354-390 | An owner whose record has become UNKNOWN can still return a result if and only if it had loaded the record before and is still about to write RUNNING or a verdict; else the record stays UNKNOWN and the owner never returns, in any continuation |
| EffectStanding.ReplaysReturnTheOriginal | sentinel/remediation_execution_identity.py:717-739 | After an owner returned, all later replays get this record and a result equal to the owner's in every continuation if and only if no sweep of that identity is still pending |
| Journal.RecoveryIsExact | sentinel/remediation_execution_identity.py:354-390 | A sweep completes if and only if no leftover claim is stray, and then it turned exactly the unfinished identities into UNKNOWN |
| Journal.RecoveryWithoutLeftovers | sentinel/remediation_execution_identity.py:354-390 | Without leftovers every sweep completes and no record is left unfinished |
| Journal.LeftoverStopsRecovery | sentinel/remediation_execution_identity.py:354-390 | A concrete leftover claim ends the sweep with an error and keeps a RUNNING record RUNNING |
| Journal.SweepOnlyInterrupts | sentinel/remediation_execution_identity.py:354-390 | Whether it completes or not, a sweep only turns unfinished records into UNKNOWN |
| Journal.AwaitTerminal | sentinel/remediation_execution_identity.py:231-290 | Polling returns the first terminal record seen, and fails by time-out exactly if every poll was inconclusive |
| Journal.ExecutionJournal.Move | sentinel/remediation_execution_identity.py:292-341 | The new disk and the answer of a transition, in all its error cases |
| Journal.ExecutionJournal.RecoverInterrupted | sentinel/remediation_execution_identity.py:354-390 | The loop computes the sweep that the recovery lemmas are about |
| Journal.ExecutionJournal.ClaimLiveRunPermit | sentinel/remediation_execution_identity.py:393-574 | First claim publishes, an equal one replays, a different one conflicts, an unauthorized one is denied |
| Journal.ExecutionJournal.Claim | sentinel/remediation_execution_identity.py:152-290 | A free name is published CLAIMED, a finished identity is replayed, an unfinished one times out, and so does the name of the permits' directory once it holds a permit |
| Journal.ExecutionJournal.RunOwned | sentinel/remediation_execution_identity.py:674-751 | The record an owner leaves behind for each behaviour of the executor |
| Journal.ExecutionJournal.Execute | sentinel/remediation_execution_identity.py:796-1012 | A whole call computes the attempt that the lemmas below are about; a bound request that misses one comparison with its authorization or decision leaves no trace, and one that meets them all, for an unused run and identity, is carried out |
| JournalRuns.AloneIsTheAttempt | sentinel/remediation_execution_identity.py:796-1012 | In any reachable state of the interleaved protocol, a call that nobody comes between leaves exactly the disk, the executor call and the answer of that attempt |
| JournalRuns.AloneEnds | sentinel/remediation_execution_identity.py:796-1012 | And every such call does end, so the attempt is always one of the protocol's runs |
| Journal.SecondCallReplays | sentinel/remediation_execution_identity.py:862-912 | After a reported result the same request is answered with the same record and result, calls nothing and writes nothing |
| Journal.CalledOnce | sentinel/remediation_execution_identity.py:526-568 | After a call that reached the executor, however it ended, no request for that run or execution id reaches it again |
| Journal.PermitWithoutRecord | sentinel/remediation_execution_identity.py:862-885 | A replayed permit whose identity has no record never calls the executor and ends with an error of its own |
| SingleUse.RegisterIsSound | sentinel/remediation_execution_identity.py:205-268 | In the abstract register a key is performed at most once and only by its owner |
| SingleUse.VerdictsStand | sentinel/commander_delivery_transport.py:306-361 | Ownership never changes, and without overwriting no verdict does |
| SingleUse.SuccessIsEarned | sentinel/ai_agent_identity.py:256-294 | Without overwriting, a successful key was performed |
| JournalRefinesRegister.StepRefines | sentinel/remediation_execution_identity.py:205-341 | Every step of the effect protocol is a register action, and a guarded one is no overwrite |
| JournalRefinesRegister.RunRefines | sentinel/remediation_execution_identity.py:205-341 | Every run of the effect protocol is a run of the register |
| AgentBoundary.Boundary.Append | sentinel/ai_agent_execution.py:348-375 | Evidence is appended with the next sequence number and nothing else changes |
| AgentBoundary.Boundary.Execute | sentinel/ai_agent_execution.py:426-605 | Acceptance exactly for the agent's own success with matching ids that the verifier accepted; one line of evidence per attempt, numbered 1..n |
| AgentBoundary.JudgementIsPossible | sentinel/ai_agent_execution.py:504-605 | Whatever adapter and verifier do, an accepted outcome carries the agent's own success, matching ids and the verifier's acceptance |
| AgentLedgerProofs.StepKeeps | sentinel/ai_agent_identity.py:201-294 | Every step of the AI ledger keeps its invariant |
| AgentLedgerProofs.StepRefines | sentinel/ai_agent_identity.py:201-338 | Every step of the AI ledger is a register action; a collision with an unfinished record forces UNKNOWN |
| AgentLedgerProofs.RunRefines | sentinel/ai_agent_identity.py:201-338 | Every run of the AI ledger is a run of the register |
| AgentLedgerProofs.VerdictsAreStates | sentinel/ai_agent_identity.py:256-294 | The register's verdict on a key is the state of its finished record, and none before |
| AgentLedgerProofs.AtMostOnce | sentinel/ai_agent_identity.py:313-338 | The adapter is called at most once per request id, over every interleaving |
| AgentLedgerProofs.SuccessWasVouchedFor | sentinel/ai_agent_identity.py:256-294 | A SUCCEEDED record implies matching ids, the agent's own success and the verifier's acceptance, for exactly this request |
| AgentTelling.RecordsTell | sentinel/ai_agent_identity.py:217-294 | An unfinished record says nothing of an outcome; a finished one was given up by a replay or says exactly what the boundary reported, UNKNOWN where the adapter raised |
| AgentTelling.AnswersAreForTheRequest | sentinel/ai_agent_identity.py:147-165 | Whoever is answered is answered with a record of the very same request, as a replay exactly if somebody else made it |
| AgentTelling.OwnerSettles | sentinel/ai_agent_identity.py:256-332 | An owner that finds UNKNOWN is answered with it and leaves it alone; one that finds RUNNING replaces it by what the boundary reported |
| AgentTelling.NobodyIsStuck | sentinel/ai_agent_identity.py:313-338 | From every reachable state each caller that has not ended can take a step, and can crash |
| AgentOverlap.FinishedStands | sentinel/ai_agent_identity.py:201-294 | In every reachable state a finished ledger record keeps its state in every continuation if and only if nobody who loaded it before is still about to write another |
| AgentOverlap.UnknownStays | sentinel/ai_agent_identity.py:217-239 | So an UNKNOWN stays for good if and only if no caller of that request still holds a verdict to write |
| AgentOverlap.FinishedStandsAfterSeparateRuns | sentinel/ai_agent_identity.py:201-294 | Where load and store of one method were never interleaved with another's on the same key, every finished record stays for good |
| AgentOverlap.LateFinalizeBuriesUnknown | sentinel/ai_agent_identity.py:323-332 | A concrete run from the empty ledger in which a finalize replaces the UNKNOWN that a replay wrote and returned with SUCCEEDED |
| DeliveryLedger.StepKeeps | sentinel/commander_delivery_transport.py:234-361 | Every step of the delivery ledger keeps its invariant |
| DeliveryLedger.StepRefines | sentinel/commander_delivery_transport.py:234-492 | Every step of the delivery ledger is a register action, and none ever overwrites |
| DeliveryLedger.RunRefines | sentinel/commander_delivery_transport.py:234-492 | Every run of the delivery ledger is a run of the register |
| DeliveryLedger.AtMostOnce | sentinel/commander_delivery_transport.py:400-492 | The transport is called at most once per delivery id, over every interleaving |
| DeliveryLedger.VerdictsLast | sentinel/commander_delivery_transport.py:306-361 | A recorded verdict stays, with its whole record, and its owner's one attempt is what the record tells |
| DeliveryLedger.VerdictsAreReports | sentinel/commander_delivery_transport.py:440-492 | SUCCEEDED and FAILED are the transport's own report on exactly this delivery, with its receipt; where it raised, the record says UNKNOWN, what was raised, and no receipt |
| DeliveryRuns.NewDeliveryIsSent | sentinel/commander_delivery_transport.py:400-492 | In any state, a delivery under a new id that nobody comes between is sent once and answered with a record that tells what the transport did |
| DeliveryRuns.TakenDeliveryIsAnswered | sentinel/commander_delivery_transport.py:267-290 | Under a taken id nothing is sent: the same delivery gets the finished record, anything else is refused |
| DeliveryRuns.DisabledTransportSendsNothing | sentinel/commander_delivery_transport.py:424-434 | With the transport disabled nothing is written and nothing sent |
| DeliveryRuns.NobodyIsStuck | sentinel/commander_delivery_transport.py:400-492 | From every reachable state each caller that has not ended can take a step, and can crash |
| DeliveryLedger.AnswersAgree | sentinel/commander_delivery_transport.py:428-492 | Everybody answered for one delivery id is answered with the same record |
| ApprovalLedger.PartOfABodyIsNoBody | sentinel/systemd_production_activation_consumption.py:225-253 | Nothing short of the whole text of a record reads as a record, and texts tell records apart |
| ApprovalLedgerProofs.StepKeeps | sentinel/systemd_production_approval_issuance.py:62-157 | Every step of a ledger keeps its invariant, and files only grow towards their owner's record |
| ApprovalLedgerProofs.RecordsLast | sentinel/systemd_production_activation_consumption.py:460-539 | In every run reservations keep their owner and complete records never change |
| ApprovalLedgerProofs.OnePerKey | sentinel/systemd_production_approval_issuance.py:124-157 | At most one grant per approval id and one consumption per activation id, over every interleaving and crash |
| ApprovalLedgerProofs.AddedIsRecorded | sentinel/systemd_production_approval_issuance.py:126-157 | Whoever was given a grant or a consumption has a complete record on disk |
| ApprovalLedgerProofs.OneRecordPerKey | sentinel/systemd_production_approval_issuance.py:62-87 | Two records read under one key are the same record |
| ApprovalLedgerProofs.RefusedOnlyForItsOwnKey | sentinel/systemd_production_approval_issuance.py:128-132 | With a collision-free digest the exclusive create fails exactly if this very key was reserved before |
| ApprovalRuns.NewRecordGoesIn | sentinel/systemd_production_approval_issuance.py:102-157 | In any usable ledger, an issuance after one scan, a consumption after two, puts its whole record under its key and changes nothing else |
| ApprovalRuns.TakenApprovalIsRefused | sentinel/systemd_production_approval_issuance.py:131-139 | An approval whose key is taken is refused and changes nothing |
| LedgerMeaning.FilesRead | sentinel/systemd_production_approval_issuance.py:66-95 | A file is a record exactly if it is this text, character by character, of a record that meets every check on its fields, under the digest of its key |
| ApprovalPoison.AbandonedReservationStopsEveryone | sentinel/systemd_production_activation_consumption.py:482-517 | After a crash between reservation and complete record no later call is ever answered, in any continuation |
| ApprovalPoison.CrashAbandons | sentinel/systemd_production_activation_consumption.py:482-539 | A crash anywhere from the empty file to the last character but one leaves such a reservation |
| ApprovalPoison.UsableExactlyWhenNothingAbandoned | sentinel/systemd_production_approval_issuance.py:62-87 | A ledger can still answer some later call if and only if no reservation is abandoned |
| ApprovalStores.LedgerDirectory.Records | sentinel/systemd_production_activation_consumption.py:306-376 | The scan succeeds exactly if every file is a complete record, and returns exactly these |
| ApprovalStores.LedgerDirectory.Issue | sentinel/systemd_production_approval_issuance.py:99-157 | Result and directory after a call alone, cut short anywhere; it leaves the ledger readable exactly if its record is whole |
| ApprovalStores.LedgerDirectory.Consume | sentinel/systemd_production_activation_consumption.py:420-539 | The same for consumption, with its two scans and the look among the records |
| Fingerprints.EffectFingerprintTells | sentinel/live_remediation_safety.py:225-241 | Effect fingerprints are equal exactly for equal effects, across both effect types |
| Fingerprints.AuthorizationFingerprintTells | sentinel/live_remediation_safety.py:310-329 | Authorization fingerprints are equal exactly for equal authorizations |
| LedgerMeaning.EffectReads | sentinel/live_remediation_safety.py:225-241 | The text whose digest is an effect's fingerprint, for both effect types |
| LedgerMeaning.AuthorizationReads | sentinel/live_remediation_safety.py:310-329 | What the policy's answer carries of the effect, and the text whose digest is its fingerprint |
| Fingerprints.AuthorizationFitsOneEffect | sentinel/live_remediation_safety.py:331-372 | An authorization minted for one effect is accepted for another if and only if they are the same effect and its names carry no blanks around them |
| Fingerprints.PaddedEffectIsRefused | sentinel/live_remediation_safety.py:331-372 | A concrete generic effect, with a blank before its incident, is refused with its own authorization |
| ApprovalChainTheorems.StepKeeps | sentinel/systemd_production_commander_authorization.py:33-84 | Every step of the chain keeps every context backed by complete records in both ledgers |
| ApprovalChainTheorems.ContextsAgree | sentinel/systemd_production_activation_binding.py:71-233 | Two contexts of one approval, or of one activation, carry the same effect binding and the same consumption |
| ApprovalChainTheorems.OneApprovalOneEffect | sentinel/systemd_commander_integration.py:197-253 | Over every interleaving with crashes, no two external calls stem from one approval id or from one activation id |
| ApprovalChainTheorems.ApprovedCallIsRecorded | sentinel/systemd_production_commander_authorization.py:41-84 | An approved call has both records complete on disk, naming its very effect; the activation was consumed before the policy was asked and the approval was in force then |
| ApprovalChainTheorems.ApprovedCallWasConfigured | sentinel/remediation_policy.py:122-215 | The policy that was asked had exactly this effect configured for its run, its action allowed, on a known, unprotected target with a verification and no other restriction |
| ApprovalChainTheorems.ApprovedCallNamesOneEffect | sentinel/systemd_production_activation_binding.py:71-233 | Approval, consumption, request and decision of an approved call name the same effect, field by field, and the evidence was fresh when the policy was asked |
| LedgerMeaning.SpeaksExactly | sentinel/systemd_production_commander_authorization.py:55-84 | A context speaks for an effect exactly if grant, consumption and effect agree, in order and within every limit |
| BoundPolicy.ProductionAllows | sentinel/remediation_policy.py:262-394 | Exactly when the production policy allows an effect, and the reason it gives otherwise |
| ActivationLease.Policy.EvaluateBound | sentinel/remediation_policy.py:122-215 | An effect is allowed exactly if its action is, its target may be acted on and it is the one configured for its run |
| ActivationLease.ConfigureAndAsk | sentinel/remediation_policy.py:67-107 | After an effect was configured it is allowed, if its target may be acted on at all, and no other effect of its run is |
| VerifiedExecution.ExecuteVerified | sentinel/systemd_commander_integration.py:140-327 | A denial touches nothing, a production attempt is recorded before anything runs and not made if that fails, and recovery takes a successful execution and a verified observation after it |
| VerifiedExecution.TryTwice | sentinel/systemd_commander_integration.py:217-253 | A second try of an effect that reached the executor never calls it again, whatever became of the first, and a replayed success still has to be observed |
| CanonicalJson.EncodeUnique | sentinel/incident_evidence.py:77-83 | The text of a value, wherever it stands, determines the value and where it ends |
| CanonicalJson.EncodeInjective | sentinel/resource_bound_remediation.py:43-53 | Equal canonical texts come only from equal values |
| CanonicalJson.QuoteUnique | sentinel/incident_evidence.py:77-83 | String escaping as in section 7 of RFC 8259 is uniquely decodable, with and without ensure_ascii |
| CanonicalJson.ObjectUnique | sentinel/systemd_production_approval_issuance.py:47-48 | No text after an object makes another object of it |
| CanonicalJson.CommandInjective | sentinel/remediation_execution_identity.py:754-762 | Comparing command texts compares argument vectors word for word |
| JsonText.CommandText | sentinel/remediation_execution_identity.py:754-762 | The text of an argument vector is its words in quotes between brackets, with a comma between any two |
| JsonText.NumbersAreDecimal | sentinel/incident_evidence.py:77-83 | Integers are written in decimal with their value, and a sign exactly where they are negative |
| JsonText.Scalars | sentinel/incident_evidence.py:77-83 | The texts of null, the truth values, the empty array and object, and sample numbers |
| JsonText.ControlEscapes | sentinel/incident_evidence.py:77-83 | The escapes of quote, backslash and control characters, as in section 7 of RFC 8259 |
| JsonText.WideEscapes | sentinel/incident_evidence.py:77-83 | Beyond ASCII a character stands as it is, or with ensure_ascii as one or two groups of four hexadecimal digits |
| KeyOrder.FieldsTellTheMap | sentinel/incident_evidence.py:77-83 | Writing the keys in order loses nothing of a dictionary |
| KeyOrder.CanonicalInjective | sentinel/incident_evidence_integrity.py:60-66 | Canonical texts of dictionaries are equal exactly for equal dictionaries |
| StableSort.SortPermutes | sentinel/incident_evidence.py:501-508 | Sorting keeps every element as often as it was there |
| StableSort.SortOrders | sentinel/incident_evidence.py:501-508 | The result is in order |
| StableSort.SortKeepsFirst | sentinel/incident_evidence.py:501-508 | The sort is stable |
| StableSort.OrderedIsUnique | sentinel/incident_evidence.py:501-508 | Where ranks tell elements apart there is only one ordered arrangement |
| Timeline.SealTimeline | sentinel/incident_evidence.py:498-528 | The sort and the sealing loop compute the sealed timeline that the lemmas are about |
| Timeline.VerifyTimeline | sentinel/incident_evidence.py:531-550 | The loop accepts exactly the timelines with unbroken numbers, links and digests |
| TimelineTheorems.SealVerifies | sentinel/incident_evidence.py:498-550 | Whatever is sealed verifies, with the digest a report check expects |
| TimelineTheorems.SealSorts | sentinel/incident_evidence.py:498-528 | The timeline is a permutation of the given events, in rank order, changed only in the five keys that sealing writes |
| TimelineMeaning.SealedInTime | sentinel/incident_evidence.py:501-508 | In a sealed timeline no event stands after a later one; ties go by source, source id and signal, at the first character that differs |
| TimelineMeaning.SealedEventsAreFiled | sentinel/incident_evidence.py:85-123 | Every sealed event has its number, the category of what its signal is about, and the first state its snapshots report |
| TimelineTheorems.SealIdempotent | sentinel/incident_evidence.py:498-528 | Sealing a sealed timeline changes nothing |
| TimelineTheorems.OrderFreeExactlyWhenUnambiguous | sentinel/incident_evidence.py:501-508 | The result is the same for every order of the input if and only if no two events with equal four-part keys differ elsewhere |
| TimelineTheorems.DigestTellsTheTimeline | sentinel/incident_evidence.py:531-550 | Two verified timelines with the same digest are equal, event for event |
| TimelineTheorems.NonemptyDigest | sentinel/incident_evidence_query.py:88-105 | The digest of the empty timeline belongs to no other |
| EvidenceQuery.ValidateReport | sentinel/incident_evidence_query.py:68-141 | The checks and loops accept exactly the valid reports |
| EvidenceQuery.Search | sentinel/incident_evidence_query.py:305-367 | The loops compute the answer that the next row is about |
| EvidenceQuery.SearchIsExact | sentinel/incident_evidence_query.py:266-367 | A search fails on any bad report, and else answers with exactly the matching reports, each with exactly its matching events, in order |
| EvidenceMeaning.ValidMeansSound | sentinel/incident_evidence_query.py:68-141 | A report is used exactly if it is sound in every field, from its profile to each event's number, link, digest and correlation |
| EvidenceMeaning.SearchAnswers | sentinel/incident_evidence_query.py:266-367 | A search answers with exactly the reports and events asked for, in the fields of query, report and event, by start and then by incident |
| EvidenceQuery.EverythingSelected | sentinel/incident_evidence_query.py:305-367 | The empty query returns every report with its whole timeline |
| EvidenceAudit.NormalizedIsOk | sentinel/incident_evidence_integrity.py:79-121 | Completeness that was checked and normalized passes the same check again, unchanged |
| EvidenceAudit.VerifyAudit | sentinel/incident_evidence_integrity.py:128-207 | The one-pass verifier accepts exactly the manifests with unique incidents, in order, whose totals equal a recount and whose digest is theirs |
| EvidenceAudit.PassOver | sentinel/incident_evidence_integrity.py:151-185 | Its loop recounts, and refuses a bad entry or a repeated incident |
| EvidenceAudit.Compile | sentinel/incident_evidence_integrity.py:261-327 | The auditor's loop builds the manifest, or refuses exactly the summaries that fail its checks |
| EvidenceAudit.Run | sentinel/incident_evidence_integrity.py:261-331 | An audit is produced exactly if search and checks succeed, and its last guard never trips |
| EvidenceAudit.ManifestIsAccepted | sentinel/incident_evidence_integrity.py:327-331 | For any store whose search and checks succeed, the standalone verifier accepts the manifest |
| AuditMeaning.AcceptsExactly | sentinel/incident_evidence_integrity.py:128-207 | The verifier accepts exactly the manifests that are sound in every entry, in order, add up, and carry the digest of this very text |
| AuditMeaning.EntryReads | sentinel/incident_evidence_integrity.py:300-313 | How an entry stands, member by member, in the text that the audit's digest covers |
| AuditMeaning.AuditCopies | sentinel/incident_evidence_integrity.py:261-327 | Every entry of an audit copies its report, counts its events and lists its failed checks in order |
| AuditMeaning.AuditLeavesNothingOut | sentinel/incident_evidence_integrity.py:261-327 | No report of the store is left out |
| EvidenceAudit.EqualAuditsMeanEqualEvidence | sentinel/incident_evidence_integrity.py:124-125 | Two stores with equal audit digests hold the same incidents with equal timelines down to every event |
| ActivationLease.Policy.ConfigureBoundEffect | sentinel/remediation_policy.py:67-107 | When configuring fails, when it creates the dictionary, and what it adds |
| ActivationLease.Catalog.Register | sentinel/remediation_action_catalog.py:31-59 | The entry goes in before the trigger is checked, so a failing registration may leave it there |
| ActivationLease.Lease.Capture | sentinel/live_remediation_activation_lease.py:106-145 | The snapshot is the exact view of all four containers |
| ActivationLease.Lease.Restore | sentinel/live_remediation_activation_lease.py:175-218 | Contents, order and object identities of the saved view are back, whatever was there |
| ActivationLease.Lease.Activate | sentinel/live_remediation_activation_lease.py:253-310 | Activation succeeds exactly if the pair is free, action, entry, run and trigger are unused and nothing raises; on an exception everything is as it was, and an interrupt leaves the changes made so far and the pair claimed |
| ActivationLease.Lease.Close | sentinel/live_remediation_activation_lease.py:312-325 | Closing puts the saved view back whatever the body did, and gives up the pair |
| LeaseTheorems.Nested | sentinel/live_remediation_activation_lease.py:327-337 | Any number of nested leases, sharing what they like, around any body and with failures anywhere, leave every policy, catalog and container as it was |
| LeaseTheorems.BackAgain | sentinel/live_remediation_activation_lease.py:175-218 | Why nesting is safe: what another lease on shared containers sees is undone exactly |
| LeaseOrders.UseInAnyOrder | sentinel/live_remediation_activation_lease.py:89-104 | Any sequence of activations failing or interrupted anywhere, of early, late or repeated closings, and of changes, replacements and sharing of all four containers in between, by any number of leases, keeps every lease valid and no two active on one pair |
| LeaseOrders.OpenBoth | sentinel/live_remediation_activation_lease.py:253-302 | Two leases on different pairs opened in turn are both active, each with what it found saved, the second with the traces of the first in it exactly where they share something |
| LeaseOrders.FirstInFirstOut | sentinel/live_remediation_activation_lease.py:312-325 | Closed in opening order they bring both pairs back if and only if they share neither policy nor catalog; else the first action stays allowed, or the first entry stays registered |
| LeaseOrders.CloseBeside | sentinel/live_remediation_activation_lease.py:312-325 | Closing a lease beside the holder of the pair keeps the holder's action if and only if it has no snapshot, or one with that action in it |
| LeaseOrders.LateClose | sentinel/live_remediation_activation_lease.py:304-325 | A late close of another lease leaves a good activation in force if and only if that lease never had a failed attempt |
| LeaseOrders.InterruptedUntilClosed | sentinel/live_remediation_activation_lease.py:253-325 | An interrupted activation leaves what it changed and blocks the pair for every other lease, until its own close brings everything back and frees the pair |
| MissionQueue.Load | queue.py:46-112 | The loading loop accepts exactly well-formed files and builds their tasks |
| MissionQueue.ExecutionQueue.UpdateStatus | queue.py:142-158 | The first task of that id is replaced, nothing else |
| MissionQueue.ExecutionQueue.Save | queue.py:114-127 | The file holds the dictionaries of all tasks, or is untouched without a mission id |
| MissionQueue.SaveLoad | queue.py:22-127 | Saving a queue and loading it gives the queue back |
| Scheduler.SchedulerState.FindTask | scheduler.py:77-82 | The first match |
| Scheduler.SchedulerState.CanExecute | scheduler.py:34-46 | True exactly if the task is pending and each dependency exists and is complete |
| Scheduler.SchedulerState.NextTask | scheduler.py:26-32 | The first pending task that can run |
| Scheduler.NextIsFirstToStart | scheduler.py:26-46 | The task picked is the first whose own waiting list, as text, list or single value, names only tasks that exist and are complete |
| Scheduler.SchedulerState.MissionComplete | scheduler.py:64-67 | True exactly if every task is complete |
| Scheduler.RunOnce | runtime.py:59-123 | The file and the report after a cycle, also where the executor, the worker or the verifier raises and nothing is saved |
| SchedulerFile.LoadsExactly | queue.py:46-112 | A file loads exactly if its mission id is not blank and each entry has every field in its form |
| SchedulerFile.CycleRewritesOneEntry | runtime.py:59-123 | A cycle that ran a task rewrites the first entry with its id, complete with the result or failed with the details, and leaves every other entry as it was |
| SchedulerTheorems.FileCycles | runtime.py:59-123 | Cycles through the file, with saving and reloading, are cycles on the tasks |
| SchedulerTheorems.CycleUsesUpOne | queue.py:142-158 | A cycle that runs a task leaves one pending task fewer, even with duplicate ids |
| SchedulerTheorems.FewCycles | runtime.py:59-123 | At most as many cycles run a task as there were pending tasks, and then the queue is idle for good |
| SchedulerTheorems.LeastFixpoint | scheduler.py:26-46 | Once idle, the complete tasks are the least set closed under: complete at the start, or pending, not failed, with every dependency existing and in the set |
| SchedulerTheorems.CompleteExactlyWhenWellFounded | scheduler.py:64-67 | An all-pending queue without failures reaches mission complete if and only if ids are unique, dependencies exist and form no cycle |
| SchedulerTheorems.StuckMeansCycle | scheduler.py:34-46 | From a task that stays pending although all dependencies exist, the dependencies lead over stuck tasks into a cycle, on the walk that is returned |
| Reliability.Ledger.BeginCycle | sentinel/runtime_reliability.py:80-89 | One cycle at a time; the others are counted as rejected |
| Reliability.Ledger.RecordFailure | sentinel/runtime_reliability.py:91-126 | The history grows by one numbered entry, the deque stays the last entries of it, the totals add up |
| Reliability.Ledger.CompleteCycle | sentinel/runtime_reliability.py:128-142 | Counters of completed and degraded cycles, and the streak |
| Reliability.RetainedStep | sentinel/runtime_reliability.py:76-78 | Dropping the oldest when full keeps exactly the last entries of the whole history |
| Reliability.RunProtected | sentinel/runtime.py:515-575 | What one cycle records, where it stands and how it leaves, for every behaviour of what it calls |
| Reliability.RunOnce | sentinel/runtime.py:507-593 | Every opened cycle is accounted for: what is recorded, whether it closes, whether it counts as degraded |
| Reliability.ClosesUnlessPrintingFails | sentinel/runtime.py:576-593 | A cycle that was opened closes if and only if it is not left by an exception whose printing raises as well |
| Reliability.OpenCycleBlocks | sentinel/runtime_reliability.py:80-89 | A cycle left open rejects the next one |
| Bootstrap.InstallAll | sentinel/systemd_canary_bootstrap_executor.py:205-220 | Success means every artifact exact; no mutation marked means nothing written by an all-or-nothing install |
| Bootstrap.RemoveAll | sentinel/systemd_canary_bootstrap_executor.py:397-419 | A rollback writes nothing, removes only files that verify as exact, and reports what it could not remove |
| Bootstrap.ReportLeftovers | sentinel/systemd_canary_bootstrap_executor.py:445-453 | Whatever is still there is reported |
| BootstrapExecutors.ApplyCommands | sentinel/systemd_canary_bootstrap_executor.py:222-274 | Success exactly if every command answered zero and its verification held, and the commands that were given up to there |
| BootstrapExecutors.RollBackCanary | sentinel/systemd_canary_bootstrap_executor.py:364-479 | The commands of a rollback in order; without errors no artifact is left, sentinel is active, no-new-privileges off, the canary stopped |
| BootstrapExecutors.ExecuteCanary | sentinel/systemd_canary_bootstrap_executor.py:137-333 | It succeeds exactly on a healthy host that answers every question as it should; what each status promises about files and services, why a host was refused, and which commands were given |
| BootstrapExecutors.ExecutePilot | sentinel/bounded_pilot_bootstrap_executor.py:122-224 | It succeeds exactly where nothing is in the way and every answer is as it should be; the same promises about files, and which commands were given |
| BootstrapExecutors.RollbackKept | sentinel/bounded_pilot_bootstrap_executor.py:241-295 | A rollback without errors leaves exactly the files from before |
| DeliveryProjection.CheckIncidents | sentinel/commander_delivery.py:289-305 | The loop refuses invalid or repeated incidents and sums their evidence |
| DeliveryProjection.CheckQueue | sentinel/commander_delivery.py:305-343 | The loop and the comparison of ids check what the next row is about |
| DeliveryProjection.ChecksMeanPermutation | sentinel/commander_delivery.py:305-343 | The separate checks hold if and only if the attention queue is a permutation of exactly the flagged incidents |
| DeliveryMeaning.ProjectableIsConsistent | sentinel/commander_delivery.py:230-360 | A rollup is projected exactly if it is consistent, in its own fields: form of every incident, counts, sums, and a queue of exactly the incidents that want attention |
| DeliveryProjection.CountsAgree | sentinel/commander_delivery.py:251-305 | So the attention count is the number flagged, evidence is the sum over incidents, and status counts sum to the incident count |
| DeliveryProjection.Project | sentinel/commander_delivery.py:230-360 | A projection is produced exactly for consistent rollups, and says what they say |

## Left out

- Replay on the unbound path is not compared with the request: the code does not compare it.
- Journal.ExecutionJournal.Claim: models the methods of one process alone, which JournalRuns.AloneIsTheAttempt places among the interleaved runs; waiting for another process's record is AwaitTerminal and the interleaved model.
- ApprovalStores.LedgerDirectory.Issue: one call alone; many at once are the machine of ApprovalLedger, where a scan reads one file at a time.
- ActivationLease.Lease.Activate: an interrupt out of any call in its protected part is modelled, one during the capture or inside the rollback is not.
- The checks on the form of delivery ids, destinations and digests in commander_delivery_transport.py: deliveries arrive with valid ones.
- File modes, owners, O_NOFOLLOW, fsync, temporary names and the loss of unsynced data on power failure.
- The 30-second deadline of `claim` is a step that gives up at any time.
- Floating-point timestamps and JSON numbers with fractions; time is an integer and JSON numbers are integers.
- Characters are Unicode scalar values: lone surrogates, which Python strings may hold, are not modelled. Stripping removes ASCII blanks only, and upper-casing changes ASCII letters only.
- `isinstance` checks: values have their types. A lease whose containers are of the wrong type is therefore not modelled.
- The freshness rule of evidence is modelled, rebuilding the plan from it is not: the guards of a context are weaker here than in the code, so more runs are covered.
- The production runtime guard around `execute_verified` and the rules of its restart verifier; whether the attempt record can be written and what the verifier says are parameters.
- SystemdProductionTargetPolicy, its assessment is a parameter.
- The sections of an incident report that are drawn from the timeline, and the events collected from incident and diagnostic stores; sealing starts from the events.
- Unknown top-level fields of a rollup: its record has exactly the expected ones. Status counts are only compared in sum, as in the code.
- Bootstrap.InstallAll: an install that fails after writing part of a file is covered, with the promise that only this file differs.
- Events and interleavings inside the runtime cycle other than those that touch the reliability ledger; starting and stopping the runtime.
- Executors, subprocesses, tmux, systemctl, polkit, HTTP, Markdown and user interfaces.
