# Compiler Runtime Fabric: a verified model

Compiler Runtime Fabric runs the phases of a compilation under generation-bound authority. A phase
is reserved under the toolchain, target, environment, policy and source generations its session was
created with, executed by an external compiler, validated, and committed only if everything it was
bound to still holds. Sessions are written to an append-only journal and recovered from it.

This project models that logic in Dafny and proves what it promises:

- **The commit protocol** is a step system (`Runtime.dfy`). Each action is one section that the
  runtime executes under its lock; any number of callers may interleave between two sections, and
  whatever the outside world decides (clocks, process reports, validation answers, re-probes,
  refused appends) is an argument of the action. `Safety`, `Bindings`, `ArtifactSafety` and
  `Custody` are invariants that every action keeps; `RuntimeObject` is the runtime as a class whose
  fields are updated in place, each method proved against its step function and keeping `Valid()`.
- **Lives** (`Restart`, `Takeover`, `Lives`) are runs with any number of crashes. A start may find
  any of the journal's records readable; every invariant holds again before the first action, so
  commit safety, artifact authority and the retry budget are theorems about every epoch of every
  life that starts from an empty runtime.
- **Histories** (`History`) couple a life with the bytes of its journal file: each logged session
  is an append, an append may be interrupted after any byte, and each crash is a cut at any byte
  behind the file header. Every history is shown to be a life, every run a history of a store that
  is large enough, and the durability theorem is stated on the bytes.
- **Recovery** (`Recovery`, `Planning`): `apply_recovery` uses up a plan that the planner made under
  an earlier lock, so that a plan can be stale when it is applied.
- **The plan** (`Graph`, `Kahn`, `PhasePlan`, `Ancestry`) and **its driver** (`Scheduler`,
  `DriverRounds`).
- **Durable state** (`Wire`, `Codec`, `Records`, `SessionCodec`, `BundleCodec`, `Journal`, `Store`,
  `Durability`, `Replay`).
- **Byte-level algorithms** (`Crc32c`, `Sha256`, `Invocation`) and the process hand-off (`Process`).

Where a property fails, the failing input is given and the exact condition is proved:

- A commit survives a crash before a later record of its session can be read if and only if its own
  record is within the ceilings of the decoder. `LongDetail.CommitLost` is a run that reports a
  commit whose record is refused (a report detail over 8192 bytes) and is, on every store with room
  for it, a history whose bytes a start trusts and recovers without the commit;
  `Replay.LongDetailUnreadable` and `History.OversizedCommitLost` say why.
- Artifacts become authoritative before the append is known to succeed.
  `AuthorityOrigin.PublishBackedIff` is the exact condition for one commit and
  `AuthorityOrigin.AuthorityBackedIff` for a life; `Witness.RefusedAppendLeavesAuthority` is a run.
- `apply_recovery` puts a phase that is under way back to READY without a retry, which is why the
  attempt budget has a third term and the ceiling per phase a condition. In
  `Witness.ThirdAttemptWithoutRetry` a plan made while the phase had FAILED with an unknown outcome
  is applied while its retry is under way, and the only phase of a plan is attempted three times
  where the policy allows one retry.
- An append that is interrupted may leave bytes behind. `Store.LeftoverVerdict` says exactly when
  the next load is trusted; `Store.InterruptedThenShorter` is a sequence of two appends after which
  the whole journal is refused. `History.LeftoverDecides` joins the verdict to reported commits.
- Appending does not count records but loading does: `Store.RecordCeiling`.
- `trace_lineage` refuses an artifact that is reached twice, also where there is no cycle
  (`Provenance.SharedAncestorRefused`).
- The restart test of the recovery planner compares a committed phase's lease with an observation
  in which no lease is filled in, so that it never matches (`Recovery.LeaseNeverMatches`).
- A generation bound in an earlier process can come round again after a restart:
  `Reinterning.StaleBindingMatchesIff` says exactly when, and `Rebound.CommitUnderOtherContents` is
  a life in which a session commits under other contents than it was bound to.
- The driver puts the session in state ACTIVE in every round, also after the last commit has made it
  COMMITTED (`DriverRounds.RunSession`).

Other points where the code does something a reader may not expect, all of them in the model:
`validate_phase_outputs` and the reproducibility check make no staleness check; a report for the
current invocation is accepted in any phase state and adds outputs; rejecting the outputs of a
committed phase revokes its artifacts; the retry counter is 32 bits wide and wraps; any nonzero
byte decodes as true and upper-case hex is accepted; phase identities restart at 1 in each process,
so that revoking the outputs of a phase can also revoke those of an equally numbered phase of a
recovered session.

`dafny verify dfyconfig.toml` checks the project.

## Model

| member | source | states |
|---|---|---|
| Crc32c.Compute | src/core/digest.cpp:282-288 | for every message the table-driven loop returns the bit-by-bit remainder of section 12.1 of RFC 3720 |
| Crc32c.BuildTable | src/core/digest.cpp:139-153 | each table entry is eight division steps on its index |
| Crc32c.BurstDetected | src/core/digest.cpp:282-288 | any change confined to four consecutive bytes, anywhere in any message, changes the checksum |
| Sha256.HashChunks | src/core/digest.cpp:86-127 | for every way of splitting a message into chunks, updates followed by finish give the FIPS 180-4 digest of the whole message |
| Sha256.Compress | src/core/digest.cpp:45-84 | the stored schedule and the 64-round loop, with rotations made of two shifts, compute the compression function of FIPS 180-4 |
| Sha256.Sha256State.Update | src/core/digest.cpp:86-109 | absorbing a chunk extends the hashed message by exactly that chunk, whatever is buffered |
| Sha256.Sha256State.Finish | src/core/digest.cpp:111-127 | the digest of the message padded as in section 5.1.1; the pad fits its 72-byte buffer and the total is a multiple of 64 |
| Invocation.QuoteWindowsArgument | src/core/invocation.cpp:28-55 | the quoting loop with its running backslash counter computes the quoted form |
| Invocation.RenderCommandLine | src/core/invocation.cpp:57-62 | arguments are quoted and separated by single spaces |
| Invocation.CommandLineRoundTrip | src/core/invocation.cpp:28-76 | parsing the rendered line by the CommandLineToArgvW rules gives back a list of NUL-free arguments, including backslash runs and empty arguments, if and only if the program name holds no quote and is not both quoted and ended by a backslash |
| Wire.HexRoundTrip | src/core/digest.cpp:175-196 | printing a digest and parsing it gives the digest back |
| PhasePlans.Build | src/core/phase_plan.cpp:48-161 | build succeeds if and only if the nodes are well formed (count, identities, dependencies, arity, acyclic multigraph, one mandatory sink); the result is the schedule order of those nodes, and each refusal names a defect that is there |
| PhasePlans.PlanUnique | src/core/phase_plan.cpp:100-124 | a plan is determined by its nodes: the queue discipline leaves one possible order |
| Ancestry.OrderIsPermutation | src/core/phase_plan.cpp:100-124 | the order lists each phase of the plan exactly once |
| Ancestry.DependenciesFirst | src/core/phase_plan.cpp:100-124 | every dependency precedes its dependents |
| Ancestry.LastIsTheSink | src/core/phase_plan.cpp:126-161 | the last phase of the order is the only sink, and it is mandatory |
| Ancestry.IsReady | src/core/phase_plan.cpp:223-230 | ready means known, with every direct dependency among the committed phases |
| Ancestry.TransitiveDependencies | src/core/phase_plan.cpp:198-212 | the breadth-first search returns exactly the phases reachable along dependencies, each once, ascending |
| Ancestry.NotOwnAncestor | src/core/phase_plan.cpp:198-212 | in a plan no phase is among its own transitive dependencies |
| Ancestry.MandatoryAncestors | src/core/phase_plan.cpp:214-221 | exactly the mandatory phases among the transitive dependencies, ascending |
| Phases.RecordKeepsChain | src/core/runtime.cpp:539-574 | whatever transition is asked for, routed or refused, the retained history stays a contiguous chain of legal edges ending in the current state, also when its front is evicted |
| Phases.CommittedShowsPath | src/core/phase.cpp:80-129 | a chain that ends in COMMITTED ends with ready, preparing, running, produced, validating, commit-ready, committed |
| Authority.CompareValidIff | src/core/authority.cpp:108-170 | the verdict is VALID if and only if every bound domain still holds |
| Authority.HeldSinceGrant | src/core/authority.cpp:172-225 | a lease that is held was held at every earlier moment since it was granted |
| Authority.LeaseTable.RevokePhaseLeases | src/core/authority.cpp:200-212 | in whatever order the table is walked, exactly the held leases of the phase are withdrawn and counted |
| Registries.UnchangedBetween | src/core/environment.cpp:237-253 | an entry seen at one generation at two moments was the same entry at every moment between them |
| Registries.Intern | src/core/target.cpp:134-153 | the walk reuses an entry with the same contents, or adds one at the first generation |
| Registries.IdentityRegistry.Revise | src/core/policy.cpp:128-143 | the generation advances exactly when the contents differ |
| Registries.IdentityRegistry.Refresh | src/core/toolchain.cpp:215-241 | an observation that differs replaces the entry under its next generation |
| Artifacts.ArtifactRegistry.ProducedBy | src/core/artifact.cpp:117-131 | the indexed lookup returns what filtering the whole registry would, by identity |
| Artifacts.ArtifactRegistry.RevokePhaseOutputs | src/core/artifact.cpp:179-197 | walking the index withdraws authority from exactly the artifacts of the phase generation, and returns how many of them were authoritative |
| Artifacts.ArtifactRegistry.Register | src/core/artifact.cpp:78-88 | a registered artifact gets a fresh identity at its first generation, and the index still fits the registry |
| Provenance.TraceLineage | src/core/provenance.cpp:71-97 | terminates on every registry, even a cyclic one; succeeds exactly when everything reachable is registered and nothing is reached twice, and then returns exactly the reachable artifacts, each once, by identity |
| Provenance.LineageIsAuthoritative | src/core/provenance.cpp:99-110 | true only when everything reachable is authoritative and VALID; false only when something reachable is not, or an artifact is reached twice |
| Provenance.NoCycle | src/core/provenance.cpp:71-97 | where lineage edges descend, no descent comes back to where it started |
| Provenance.SharedAncestorRefused | src/core/provenance.cpp:71-97 | a lineage with a shared ancestor and no cycle is refused |
| Sessions.CommittedPhases | src/core/session.cpp:122-129 | exactly the committed phases of the plan, in plan order |
| Sessions.AllMandatoryCommitted | src/core/session.cpp:136-142 | true exactly when every mandatory phase is committed |
| Sessions.MandatoryMeansAll | src/core/session.cpp:136-142 | since the sink is mandatory, all mandatory phases committed means all phases committed |
| Sessions.RetryPermittedIff | src/core/retry.cpp:36-128 | a retry is granted if and only if no attempt is under way or concluded for good, the failure may be retried and both ceilings allow it, or authority had only moved |
| Safety.ApplySound | src/core/runtime.cpp:539-574 | every action, whatever the world answers, keeps histories, dependency order, at-most-once commits and the journal's account of them |
| Guarantees.HistoryOverRuns | src/core/runtime.cpp:539-574 | in every reachable state every phase's history is a chain to its state, and a committed phase shows the whole commit path |
| Guarantees.CommitsOnceInOrder | src/core/runtime.cpp:2025-2047 | for any number of concurrent callers each phase is reported committed at most once, after every phase it depends on: commits are a linear extension of the plan |
| Guarantees.CommittedClosedOverRuns | src/core/runtime.cpp:576-618 | in every reachable state the committed phases are closed under dependencies, and if the last phase of the order is committed then all are |
| Guarantees.CommitsOnlyByCommit | src/core/runtime.cpp:2176-2272 | a phase enters COMMITTED only by a commit, and that commit is reported |
| Bindings.ApplyBindings | src/core/runtime.cpp:625-770 | every action keeps invocations, leases and reservations in order: a phase goes on with its attempt or is reserved anew under a fresh invocation and lease |
| CommitSafety.NoAuthorityChange | src/core/runtime.cpp:2049-2145 | when a commit is reported, the toolchain, target, environment and policy entries of its session have been the same at every moment since the session was created: no ABA |
| CommitSafety.NoChangeSinceReserved | src/core/runtime.cpp:681-770 | the same since any reservation of a phase of the session, for sessions of any age and for whichever reservation commits, handed out or rebuilt |
| CommitSafety.LeaseNeverRevoked | src/core/authority.cpp:188-225 | the lease of a phase that commits is held, and was at every moment since it was granted |
| CommitSafety.StaleNeverCommits | src/core/runtime.cpp:2027-2047 | a reservation commits only if it was current at every moment since it was handed out |
| Restarts.RestartSound | src/core/runtime.cpp:2366-2457 | starting from whichever records of the journal can be read yields a sound runtime: the last readable record of each session, in-flight phases fenced, and the commits those records show |
| Takeover.RestartHealthy | src/core/runtime.cpp:2419-2457 | after any restart the invariants on attempts, reservations, artifacts and their custody hold again |
| Lives.LifeHealthy | src/core/runtime.cpp:2314-2457 | at every moment of every life, with any number of crashes, every invariant holds |
| Lives.LifeCommitsOnce | src/core/runtime.cpp:2025-2047 | over a life each phase is committed at most once among the commits still on record, after its dependencies, and committed phases are closed under dependencies |
| Lives.LifeNoAuthorityChange | src/core/runtime.cpp:2049-2145 | commit safety without ABA in any epoch of any life |
| Lives.LifeNoChangeSinceReserved | src/core/runtime.cpp:681-770 | in any epoch of any life nothing a session is bound to changed between a reservation of one of its phases and a later commit |
| Lives.ReservedInEpoch | src/core/runtime.cpp:625-770 | whatever is in flight at some moment of a life was reserved earlier in the same epoch |
| Lives.CommitWithoutChange | src/core/runtime.cpp:2025-2145 | every commit of every life: its phase was reserved in the same epoch, and from then on to the commit nothing its session is bound to has changed |
| Lives.LifeLeaseNeverRevoked | src/core/authority.cpp:188-225 | in any epoch of any life the lease of a phase that commits was never revoked |
| Lives.LifeStaleNeverCommits | src/core/runtime.cpp:2027-2047 | in any epoch of any life a stale generation or invocation never causes a commit |
| Lives.RestartForgets | src/core/runtime.cpp:2366-2457 | a restart ends every reservation and leaves no phase under way |
| Lives.RestartFences | src/core/runtime.cpp:1307-1328 | a phase found in flight is FENCED after the restart |
| Lives.LifeAuthorityAndLineage | src/core/artifact.cpp:148-197 | at every moment of every life authoritative is the same as current and implies VALID, lineage edges point to smaller identities and no lineage has a cycle |
| Custody.StepCustody | src/core/runtime.cpp:30-100 | every artifact belongs to exactly one session, phases refer only to artifacts of their own session, and every journal record carries all its session refers to |
| AuthorityOrigin.AuthorityIsBacked | src/core/runtime.cpp:2186-2192 | over every life in which no commit that comes to publish stops half-way, each authoritative artifact belongs to a session that committed the very phase generation which produced it |
| AuthorityOrigin.EveryArtifactBacked | src/core/runtime.cpp:1908-1934 | the same for every registered artifact: each is held by a session |
| AuthorityOrigin.PublishBackedIff | src/core/runtime.cpp:2049-2271 | for every commit and every answer of the probe, authority stays backed if and only if, when the commit comes to publish, the append is accepted and every output is VALID, or the first output is not VALID, or there is none |
| AuthorityOrigin.AuthorityBackedIff | src/core/runtime.cpp:2186-2271 | over a life authority is backed at every moment if and only if no commit that comes to publish stops half-way |
| RetryBudget.AttemptsWithinBudget | src/core/runtime.cpp:2653-2681 | over any life the attempts of a session never exceed the size of its plan plus the retries charged to it plus the phases recovery set back, and no phase has more than 64 |
| RetryBudget.SessionCeiling | src/core/retry.cpp:36-128 | over any life the retry counter stays within its ceiling when no retry was granted merely because authority had moved |
| RetryBudget.PhaseCeiling | src/core/retry.cpp:36-128 | over any life, for retry callers that do not overlap, a phase has at most its ceiling of retries plus one attempts, as long as no recovery resumes the session while this phase is under way |
| RetryBudget.StepRetries | src/core/runtime.cpp:2653-2676 | the stored counter changes exactly by granted retries, modulo its 32-bit width |
| Reinterning.StaleBindingMatchesIff | src/core/environment.cpp:222-253 | in an epoch that interned target, environment and policy again, a binding of an earlier epoch compares equal if and only if the identity was revised exactly as often as the bound generation says |
| Rebound.CommitUnderOtherContents | src/core/environment.cpp:222-253 | a life in which a session bound to a target, logged again after a revision and recovered, reserves and commits in the next epoch while the target has other contents |
| RuntimeObject.CollectInputs | src/core/runtime.cpp:582-606 | the loop over dependencies and their outputs succeeds exactly when all are committed and usable, and returns their identities |
| RuntimeObject.FenceAllInFlight | src/core/runtime.cpp:1307-1328 | the loop fences exactly the phases in flight, revokes their outputs and leases, and leaves the rest |
| RuntimeObject.RetireAll | src/core/runtime.cpp:2773-2786 | the loop retires every phase of the plan that may be retired and withdraws its lease |
| RuntimeObject.RegisterReported | src/core/runtime.cpp:1908-1934 | the reported outputs are registered in order, as candidates, until the registry is full |
| RuntimeObject.RuntimeImpl.ReservePhase | src/core/runtime.cpp:625-770 | a reservation is handed out exactly when every check passes and the append is accepted; the runtime stays valid and forgets nothing |
| RuntimeObject.RuntimeImpl.Record | src/core/runtime.cpp:1808-1943 | a report for a superseded reservation changes nothing; a current one moves the phase and registers its outputs; the runtime stays valid |
| RuntimeObject.RuntimeImpl.ValidateOutputs | src/core/runtime.cpp:1945-2023 | the adapter's answer is applied to every output, and the phase moves accordingly; the runtime stays valid |
| RuntimeObject.RuntimeImpl.CommitReserved | src/core/runtime.cpp:2025-2300 | either exactly one commit, of this reservation, is reported and journalled, or none; the runtime stays valid |
| RuntimeObject.RuntimeImpl.Fence | src/core/runtime.cpp:3122-3145 | shutdown fences the session in place; the runtime stays valid |
| RuntimeObject.RuntimeImpl.Retire | src/core/runtime.cpp:2764-2795 | the session is retired in place and persisted; the runtime stays valid |
| Scheduler.ReadyPhases | src/core/runtime.cpp:1159-1169 | exactly the phases of the order that are neither concluded nor waiting for a dependency, in plan order |
| Scheduler.BlockedReason | src/core/runtime.cpp:1170-1192 | if nothing can start, the first uncommitted phase is failed, fenced, cancelled or retired |
| DriverRounds.RoundIsResult | src/core/runtime.cpp:1194-1253 | whatever the sections of a batch do, in any interleaving, commits are kept and other phases are untouched |
| DriverRounds.RunSession | src/core/runtime.cpp:1095-1253 | a single driver ends within one round more than there are phases and never meets its ceiling; it finishes only with every phase committed, is blocked only by a phase that cannot run again, leaves the session FAILED and persisted when it gives up, and all it did is a run of the runtime |
| Wire.RoundTripIff | src/core/persistence.cpp:100-186 | a value is read back from its encoding if and only if it is within the decoder's ceilings |
| Wire.OnlyTheWhole | src/core/canonical.cpp:148-258 | no strict prefix and no extension of an encoding is accepted |
| BundleCodec.PhaseRoundTrip | src/core/persistence.cpp:308-439 | a phase within the ceilings decodes to itself; strict prefixes and extensions are refused |
| BundleCodec.PlanRoundTrip | src/core/persistence.cpp:679-729 | a plan within the ceilings, built again from its stored nodes, has the same nodes and order |
| BundleCodec.SessionRoundTrip | src/core/persistence.cpp:734-885 | a session within the ceilings decodes to itself; strict prefixes and extensions are refused |
| BundleCodec.BundleRoundTrip | src/core/runtime.cpp:30-170 | a bundle within the ceilings decodes to itself; strict prefixes and extensions are refused |
| BundleCodec.BundleVerdict | src/core/runtime.cpp:30-170 | a bundle below 4 GiB is read back if and only if it is within every ceiling, and refused otherwise |
| Replay.ReadableIff | src/core/runtime.cpp:2366-2388 | a logged session is readable if and only if it is within every ceiling of the decoder |
| Replay.FormatLawful | src/core/runtime.cpp:2366-2388 | the bundle format reads back what it wrote or refuses it |
| Replay.LongDetailUnreadable | src/core/persistence.cpp:196-227 | an attempt detail over 8192 bytes makes every record of its session unreadable |
| Replay.ReplaySessions | src/core/runtime.cpp:2366-2388 | the replay loop keeps the last readable bundle of each session, lists identities ascending and counts the records it skips |
| Journal.TornTailScan | src/core/persistence.cpp:1005-1107 | for any records and any cut at or behind the header the scan finds exactly the records wholly before the cut, never reports corruption and computes the offset of their end |
| Journal.DamageRefused | src/core/persistence.cpp:1032-1073 | a change within four consecutive bytes of a payload or of the first 32 header bytes makes the scan refuse the journal |
| Store.ScanFile | src/core/persistence.cpp:1005-1107 | the scan loop computes the scan |
| Store.TruncatedHolds | src/core/persistence.cpp:1250-1269 | truncating a cut journal to the computed offset leaves a whole journal of the records before the cut |
| Store.SequencesIncrease | src/core/persistence.cpp:1279-1319 | sequences of a journal increase strictly |
| Store.LeftoverVerdict | src/core/persistence.cpp:1005-1107 | a journal with bytes left behind it loads if and only if those bytes read as further records up to a torn end |
| Store.InterruptedThenShorter | src/core/persistence.cpp:1309-1316 | an interrupted append followed by a shorter one leaves a journal that is refused |
| Store.WholeLeftover | src/core/persistence.cpp:1309-1316 | a record wholly written before its append failed is found by the next load |
| Store.RecordCeiling | src/core/persistence.cpp:1092-1099 | a whole journal loads if and only if it has no more than the configured number of records |
| Store.PersistenceStore.Append | src/core/persistence.cpp:1279-1319 | an append succeeds exactly when the ceilings allow it and the write is done; then the journal has one more record; a failed write leaves the store as it was and part of the record behind it |
| Store.PersistenceStore.RecordEpoch | src/core/persistence.cpp:1321-1330 | an epoch record is appended and the header replaced, with every record kept; either write may fail, and what is on disk then is stated |
| Store.PersistenceStore.Load | src/core/persistence.cpp:1406-1440 | the load is trusted exactly when what is left behind the journal is harmless, and the journal's records come first |
| Store.OpenStore | src/core/persistence.cpp:1190-1270 | an empty file gets a header; of a cut journal exactly the whole records are kept, and epoch and creation time are those of its header; anything that does not scan is refused |
| Store.HeaderRestored | src/core/persistence.cpp:977-1003 | the epoch and creation time written into a header are the ones read back from it |
| History.HistoryStored | src/core/runtime.cpp:523-537 | from an empty store on, after every action, every interrupted append and every restart, the file is a whole journal and what can be read of it is what can be read of the runtime's log |
| History.ReopenFollows | src/core/runtime.cpp:2356-2457 | what is recovered from the cut file is exactly what the runtime is restarted from |
| History.HistoryIsLife | src/core/runtime.cpp:2356-2457 | every history of runtime and bytes is a life |
| History.CommitSurvives | src/core/runtime.cpp:2176-2272 | a readable reported commit is, at every later moment and across crashes at any bytes behind it, COMMITTED or since RETIRED under the same generation and commit identity |
| History.CommitSurvivesAnyCut | src/core/persistence.cpp:1005-1107 | cut the file of any later moment anywhere behind a reported commit: the scan trusts what is left and the replayed sessions show the commit |
| History.LeftoverDecides | src/core/persistence.cpp:1005-1107 | with bytes of interrupted appends behind the journal, the next start trusts it if and only if they read as records up to a torn end, and then the record of every reported commit is among those it reads |
| History.OversizedCommitLost | src/core/runtime.cpp:2379-2383 | a commit whose own record exceeds a ceiling is lost by a crash right after it |
| History.RunIsHistory | src/core/runtime.cpp:523-537 | every run from the initial state whose records are within the record ceiling is a history of a store that is large enough |
| LongDetail.CommitLost | src/core/runtime.cpp:2379-2383 | a run that reports a commit and is, on every store with room for it, a history whose bytes recover the session without the commit |
| History.SettledSurvives | src/core/runtime.cpp:1307-1328 | what a readable record shows as fenced, cancelled, committed or retired stays so: a fenced phase never commits |
| History.StartFences | src/core/runtime.cpp:2443-2457 | every phase the start finds in flight in the bytes is fenced, and no reservation survives |
| History.FencedStays | src/core/runtime.cpp:1307-1328 | within an epoch a settled phase keeps its generation and commit and can at most be retired |
| Recovery.RestartPhase | src/core/recovery.cpp:85-118 | when a restart phase is returned, every mandatory ancestor of it is committed and passes the authority comparison |
| Planning.MakePlan | src/core/recovery.cpp:120-210 | the plan made under the lock: an operator is asked for exactly when the phase to restart from has FAILED with an unknown outcome |
| Planning.SuspectsExactly | src/core/recovery.cpp:133-146 | what is hashed again is exactly the outputs of committed phases that are not authoritative |
| Planning.PlannedEarlier | src/core/runtime.cpp:1277-1305 | whatever plan apply_recovery uses up was made earlier in the same epoch, from the state of that moment |
| Recovery.LeaseNeverMatches | src/core/recovery.cpp:107-115 | a committed phase that was bound to a lease never passes that comparison |
| Process.WaitHandOff | src/core/process.cpp:229-294 | for any number of waiters and any interleaving the readers are joined once, the outcome is written once before it is published, and every waiter returns it |
| Process.NoWaiterStuck | src/core/process.cpp:229-294 | whatever the threads have done so far, there are further sections after which a given waiter has returned |
| Process.Capture | src/core/process.cpp:132-155 | the captured output is the first bytes of the stream up to the ceiling, and stored plus dropped equals read |
| Witness.CommitWithLongDetail | src/core/runtime.cpp:1837-1844 | a run from the initial state that reports a commit whose record carries a report detail of any length |
| Witness.RefusedAppendLeavesAuthority | src/core/runtime.cpp:2186-2271 | a run from the initial state that ends with an authoritative artifact and no reported commit |
| Witness.ThirdAttemptWithoutRetry | src/core/runtime.cpp:3004-3048 | a run from the initial state that attempts the only phase of a plan three times with one retry, where the policy allows one |

## Left out

Assumptions the theorems make, each stated in their hypotheses:

- Counters stay below the saturated maximum: `Unspent`, `Unsaturated` and the sequence bound of the store say where, since `Generation::next` and `IdAllocator::next` saturate.
- The 32-bit retry counter does not wrap (`Unwrapped`) in the attempt budget; `RetryBudget.FrugalUnwrapped` shows that grants within a ceiling never make it wrap.
- Artifact authority is backed by commits where every commit that comes to publish is clean: its append is accepted and its outputs are all VALID, or its first output is not.
- No session enters the runtime but by `create_session` and by a restart: `adopt_session` would add one of the caller's making, and the invariants assume that it is not called.
- Commit survival is for records within the ceilings of the decoder, for journals with no more records than the configured ceiling, and for cuts at or behind the 48-byte file header.
- Generations of targets, environments and policies, and identities other than sessions and artifacts, are compared within one process only: a restart interns and numbers them anew.

Not modelled:

- Lives.LifeCommitsOnce: speaks of the commits that the readable records still show; a commit whose records can all no longer be read is forgotten, and its phase may be committed again.
- Registries.IdentityRegistry.Refresh: whether an observation differs from the recorded toolchain is an argument; the field-by-field comparison is not modelled.
- History.HistoryStored: a start from a file in which the record of an interrupted append is whole, and so found although the runtime never logged it, is not a deed (`History.LeftoverDecides` and `Store.WholeLeftover` say what such a start reads); nor is a start that fails halfway because an append of its own is refused or interrupted.
- LongDetail.CommitLost: conditional on the records of the run being within the record ceiling of the store; their encoded lengths are not computed.
- DriverRounds.RunSession: takes the outcome of a batch as a function of the state it starts from; worker threads and their number appear only as interleavings of sections.
- Planning.MakePlan: the headline and the wording of the steps, which nothing acts on, are not modelled.
- Free-text reasons and details that the runtime composes are represented by one word each, and the reason of a retried reservation is the one of a first reservation.
- Contents of toolchains, targets, environments and sources are opaque canonical values; the texts in which a bundle stores them, and provenance records, pass through unread.
- Crashes inside the in-place header rewrite or with fewer than 48 bytes on disk, and snapshot files, which a restart does not read.
- adopt_session, which adds a session of the caller's making after fencing what it has in flight; the auditor, explain output and status classification, which change nothing.
- Win32 processes, pipes, file probing and hashing of real files, adapters, toolchain discovery, IPC, the coordinator and worker services, the command line: foreign calls or vendor-specific; their answers are arguments of the actions.
- POSIX-style rendering of command lines, which does not escape quotes and so has no round trip; path normalisation and workspaces.
- Injectivity of environment identities: list lengths are not encoded, so distinct path lists can share an encoding.
