# Verification of the governance tools

Dafny models of six governance tools and proofs of what they promise:

1. **Publication** (`ref_storage`, `git_store`, `world`, `stable_reader`, `publisher`, `git_records`): an exact candidate is
   published with a verified recovery bundle, a leased push and an outcome decided by readback alone. `GitStore` is the
   storage of one branch: loose file, packed-refs, directories and lock, with the steps of lock-respecting Git processes and
   arbitrary changes. `SystemCalls.World` lets any number of foreign steps happen around every call, chosen by an arbitrary
   schedule, and keeps the history of all states, so every contract speaks about all interleavings. It also keeps its own
   record of locks, classifications, bundles and pushes, and every change of the branch in that history is explained by a foreign step or
   by a push on record.
2. **Bounded execution guard** (`execution_guard`, `guard_runs`, `guard_fingerprint`): one decision, and all runs that feed
   each decision back as predecessor.
3. **Parallel-lane planner** (`lane_graph`, `path_globs`, `lane_planner`, `lane_validation`, `lane_guarantees`): cycle check,
   glob ownership, leases and integration order, and the validation loops that combine them.
4. **Merge queue** (`control_command`, `integration_capability`, `submission_routing`, `queue_server`, `queue_protocol`,
   `queue_checks`, `queue_guarantees`): from the sealed capability decision to at most one fenced submission, as a trace of
   requests to an arbitrary server.
5. **Exact argument binding** (`text`, `canonical_json`, `call_gate`): canonical JSON as a test of equality.
6. **Continuation and statements** (`continuation`, `continuation_runs`, `statements`): checkpoints composed with the guard,
   courses of a task over many workers, and the way from prompt text to statements.

`strings` and `wrappers` hold shared string operations and result types. `dafny verify dfyconfig.toml` checks the project.

Code that works step by step is modelled by methods and classes whose contracts state their whole effect; decisions without
state are functions, and what they promise is stated by lemmas. Where a promise does not hold of the code, a lemma gives an
input that shows it (`GuardRuns.ReturningHeadStartsAfresh`, `ExecutionGuard.AdmittedReleaseExact`,
`CanonicalJson.SurrogatePairCollides`, `PathGlobs.InnerWildcardOverreports`, `LaneGuarantees.StrayHolderIgnored`,
`SubmissionRouting.ConfirmationIgnoresAttemptId`, `StableReader.LockLeftBehind`, `ContinuationRuns.TwoOwners`) and the exact condition is proved next to it: `GuardRuns.HeavyWithinStretches`
with `GuardRuns.StretchBoundAttained`, `CanonicalJson.EncodeExact`, `PathGlobs.OverlapExactWhen`, `StableReader.Reader.Release`,
`ContinuationRuns.ResumedAgainExactly`.

Paths in the table are relative to the repository root.

## Model

| member | source | states |
|---|---|---|
| `RefStorage.LooseRoundTrip` | tools/governance/publication_integrity.py:894-900 | The bytes that a loose ref file holds for a SHA are read back as that SHA. |
| `RefStorage.PackedRoundTrip` | tools/governance/publication_integrity.py:926-942 | A packed-refs file as Git writes it, with its header comment and the peeled lines of annotated tags, gives a branch exactly the SHA of its only entry, and nothing when it has no entry or several. |
| `GitStore.SoundKept` | tools/governance/publication_integrity.py:786-794 | No step of a lock-respecting Git process rewrites a file in place or leaves a name without a file. |
| `GitStore.LockHoldsHead` | tools/governance/publication_integrity.py:786-794 | While the reader's lock file stands, no lock-respecting step (commit, delete, prune, repack with header and peeled lines, directory removal) changes the loose name or what the branch resolves to; packed-refs may still be rewritten. |
| `GitStore.CommitMovesHead` | tools/governance/publication_integrity.py:1319-1334 | A committed loose file is what the branch resolves to, whatever packed-refs says. |
| `GitStore.UnlockedHeadMoves` | tools/governance/publication_integrity.py:786-794 | Without the reader's lock a lock-respecting process can move the branch: the lock is needed. |
| `SystemCalls.World.LooseHeadStands` | tools/governance/publication_integrity.py:874-900 | Under the lock, the file that the loose name led to at any earlier moment of the lock, with the contents it had whenever it was read, says what the head is now. |
| `SystemCalls.World.PackedHeadStands` | tools/governance/publication_integrity.py:906-945 | Under the lock, packed-refs pinned after the loose name was seen absent says what the head is now, even after a repack replaced the file. |
| `SystemCalls.World.OrderlyGit` | tools/governance/publication_integrity.py:786-794 | Any number of lock-respecting steps between two calls keep the lock, the head since the lock, and every file. |
| `SystemCalls.World.CreateLock` | tools/governance/publication_integrity.py:823-838 | Creating the lock file exclusively either fails or leaves it as the only lock, held from that instant. |
| `SystemCalls.World.UnlinkLock` | tools/governance/publication_integrity.py:1055-1060 | Only the lock that is held can be given up, in its own directory; its period and the fate of the file go on the world's record. |
| `SystemCalls.World.GiveUp` | tools/governance/publication_integrity.py:1049-1056 | When the removal is never attempted the record says so, and among lock-respecting processes the lock file stands at that instant. |
| `SystemCalls.World.Judge` | tools/governance/publication_integrity.py:1041-1047 | Classification is a turn of the world, in which other processes act; its instant, the head and the state go on the world's record. |
| `SystemCalls.World.CloseAll` | tools/governance/publication_integrity.py:1059-1064 | Descriptors are closed from the last to the first; the first close that fails leaves the others open, and all are closed exactly when none fails. |
| `SystemCalls.World.NoLockLeft` | tools/governance/publication_integrity.py:1055-1060 | Among lock-respecting processes no lock of the reader stands once every lock on record as given up was removed. |
| `SystemCalls.World.Push` | tools/governance/publication_integrity.py:1319-1334 | The push is a compare-and-swap under the branch lock, on record with the one step of its own that moved the branch, from the expected head to the candidate, if there was one; its other steps leave the branch alone; undisturbed, it commits when the branch is unlocked at the expected head and a file can be written, whatever exit code it reports. |
| `SystemCalls.World.MovesAccounted` | tools/governance/publication_integrity.py:1319-1334 | Every change of what the branch resolves to is a step of another process on schedule or the recorded move of a push; with one push on record it is that one. |
| `StableReader.Reader.VerifyLoose` | tools/governance/publication_integrity.py:693-716 | Success means the pinned file held the pinned bytes and afterwards the loose name led to that same file; undisturbed storage always passes. |
| `StableReader.Reader.VerifyPacked` | tools/governance/publication_integrity.py:718-742 | The same for packed-refs. |
| `StableReader.Reader.VerifyAbsence` | tools/governance/publication_integrity.py:744-762 | Success means the loose name was seen absent in the pinned directory, when the reading rests on packed-refs. |
| `StableReader.Reader.PinLoose` | tools/governance/publication_integrity.py:886-907 | A pinned loose file gives the head it says, with the instants at which its name was bound and its contents were read; under lock-respecting writers that is the head the branch resolves to. A file that is not regular is closed again. |
| `StableReader.Reader.PinPacked` | tools/governance/publication_integrity.py:908-945 | A pinned packed-refs file gives the head of its only entry, seen while the loose name was absent; after that the same file, the same contents and the absence were seen again. |
| `StableReader.Reader.Readback` | tools/governance/publication_integrity.py:840-953 | The head is the one that `git ls-remote` answered to a call of this reading and that the pinned storage gives, with the instants of both; under lock-respecting writers it is what the branch resolves to. |
| `StableReader.Reader.EnterAll` | tools/governance/publication_integrity.py:803-822 | Opening or creating the directories of the branch path leaves open exactly the descriptors returned, on success and on failure; on success each level led to the directory noted, and to the wanted one where one is wanted. |
| `StableReader.Reader.AcquireLock` | tools/governance/publication_integrity.py:803-838 | After success the lock file stands in a directory that the branch path had led to before; after failure no lock is held and nothing is open, unless a close failed and the error is raw. |
| `StableReader.Reader.VerifyHierarchy` | tools/governance/publication_integrity.py:955-977 | Every level of the branch path led again to the directory noted when it was entered, down to the one that holds the lock; every descriptor opened for the comparison is closed, unless a close failed and the error is raw. |
| `StableReader.Reader.RefuseSymbolic` | tools/governance/publication_integrity.py:981-1011 | Success means the loose name was absent, or led to a regular file that was read without a symbolic ref, at instants within the call; when nothing interferes exactly those branches pass. |
| `StableReader.Reader.VerifyPins` | tools/governance/publication_integrity.py:1044-1047 | Success means that the very file that was pinned was seen again under its name with the pinned contents, and for packed-refs that no loose file shadowed it, not before the call. |
| `StableReader.Reader.VerifyAndClassify` | tools/governance/publication_integrity.py:1018-1048 | The state returned is the classification of the very head returned, on the world's record at the instant given; what was pinned was seen again between the comparison of the hierarchy and that instant, and once more after that instant. |
| `StableReader.Reader.Release` | tools/governance/publication_integrity.py:1049-1060 | The removal of the lock file is attempted if and only if no close of a pin or of the lock fails; then the directories are closed whether or not it succeeds. The period of the lock is on record with the fate of the file; a file that is abandoned stands; success means that no close failed and the file was removed. |
| `StableReader.LockLeftBehind` | tools/governance/publication_integrity.py:1049-1060 | A run without interference in which the first close of the release fails: the lock file stays, so cleaning up on every exit is false of the code, and the condition above is the exact one. |
| `StableReader.Reader.StableHead` | tools/governance/publication_integrity.py:650-1064 | For every interleaving: the open descriptors are those of the entry on every exit and every lock taken was removed, or the error is raw, and more stays open only when a close failed; success means that no close failed, that the classification is on the world's record, and that the evidence pinned before the hierarchy was compared was seen again before the recorded instant and after it, the same file with the same contents under the same name; what is replaced, rewritten or shadowed for the whole time before or after it makes it fail; with lock-respecting writers the branch resolved to the head returned at every instant from taking the lock to its removal; and when nothing interferes it succeeds with the head that the branch resolves to and leaves storage as it was. |
| `StableReader.InterferenceDetected` | tools/governance/publication_integrity.py:693-764 | A pinned name that leads elsewhere, pinned contents that differ, or a loose file over packed-refs, in force for the whole time between the comparison of the hierarchy and classification, or from classification until the lock is given up, excludes success. |
| `Publisher.Publisher.Preflight` | tools/governance/publication_integrity.py:1145-1197 | Preflight touches no bundle, pushes nothing and moves the branch by no step of its own; it admits only a descendant candidate and reports a state only from a readback of the head that means it; undisturbed, it reports the state of the branch when that is at the expected head or the candidate. |
| `Publisher.Publisher.CreateBundle` | tools/governance/publication_integrity.py:1088-1142 | A bundle is put in place only as the file that was created, verified and found to advertise the exact candidate, in that order; on failure the bundle in place is untouched, and the temporary file is removed unless removal itself fails. |
| `Publisher.Publisher.PushAndRead` | tools/governance/publication_integrity.py:1286-1364 | Both handles are closed unless a close fails, the world has at most one push more on record, and a reading lies after it; the reading is the result exactly when no close failed. |
| `Publisher.Publisher.BundleAndPush` | tools/governance/publication_integrity.py:1258-1381 | The effects on record are part of a bundling, or a whole bundling for the candidate and then at most one push; the result is PUBLISHED if and only if the branch was read after the push, the reading says the candidate, and no close failed; undisturbed it is, whatever exit code the push reports. |
| `Publisher.Publisher.Publish` | tools/governance/publication_integrity.py:1219-1381 | Over all interleavings: every change of the branch during the publication is another process's step, or the one move of its push from the expected head to its descendant candidate, behind the bundle that was created, verified and listed with the candidate; ALREADY_PUBLISHED means no bundle and no push; once the branch was read after the push that reading alone decides, unless a close fails; success is always supported by a readback. With nothing in the way it does publish a descendant of the expected head, whatever exit code the push reports, and finds a candidate that is there already. |
| `Publisher.MovesAreFenced` | tools/governance/publication_integrity.py:1258-1334 | From the world's record alone: when it holds a bundling and at most one push since, no other own step moved the branch. |
| `GitRecords.ActiveFilters` | tools/governance/publication_integrity.py:412-431 | The result is none exactly when the output is not made of triples, and else exactly the non-empty values of `filter` attributes. |
| `GitRecords.FiltersExactly` | tools/governance/publication_integrity.py:412-431 | What Git prints about attributes is read back exactly, whatever the paths and values contain besides NUL. |
| `GitRecords.GitlinkPaths` | tools/governance/publication_integrity.py:578-589 | The parser loop computes the gitlink paths of the records, and fails exactly when some non-empty record has no tab. |
| `GitRecords.GitlinksExactly` | tools/governance/publication_integrity.py:578-589 | For an index printed by Git the paths are exactly those of mode 160000, in order, even with tabs, blanks and line breaks in paths. |
| `ExecutionGuard.DecisionContinues` | tools/governance/bounded_execution_guard.py:169-236 | A decision fails exactly on unsound input; its snapshot is sound input, and as a predecessor it never makes a later decision fail, whatever that one's own snapshot is. |
| `ExecutionGuard.DecisionFollows` | tools/governance/bounded_execution_guard.py:157-236 | A decision's snapshot is the predecessor's or the current one with counters that only grew, and it is valid again. |
| `ExecutionGuard.VerdictReleases` | tools/governance/bounded_execution_guard.py:157-166 | The session is released exactly in WAITING_EXTERNAL, BLOCKED, STALLED and DONE. |
| `ExecutionGuard.AdmittedReleaseExact` | tools/governance/bounded_execution_guard.py:217-236 | An admitted operational action releases the session exactly when it completes, or is a heavy validation declared in a releasing state: the plain claim that it never does is false. |
| `GuardRuns.NoProgressBounded` | tools/governance/bounded_execution_guard.py:169-236 | In every run without material progress the admitted non-observing actions number at most retry budget plus heavy budget plus one. |
| `GuardRuns.NoProgressBoundAttained` | tools/governance/bounded_execution_guard.py:169-236 | Under every policy some run attains that bound. |
| `GuardRuns.HeavyBounded` | tools/governance/bounded_execution_guard.py:223-230 | On one contiguous head the admitted heavy validations stay within their budget even when every other field changes. |
| `GuardRuns.HeavyWithinStretches` | tools/governance/bounded_execution_guard.py:128-143 | Over a whole run, whatever heads it visits, the heavy validations on one head are at most its budget times the number of contiguous stretches on it. |
| `GuardRuns.StretchBoundAttained` | tools/governance/bounded_execution_guard.py:128-143 | For every policy and every number of stretches some run attains that bound. |
| `GuardRuns.ReturningHeadStartsAfresh` | tools/governance/bounded_execution_guard.py:128-143 | Going from head A to B and back to A admits more heavy validations on A than the budget, under every policy whose budget is not zero. |
| `GuardRuns.IdentityKept` | tools/governance/bounded_execution_guard.py:128-131 | Repository and task of a run never change. |
| `GuardRuns.CountersNeverFall` | tools/governance/bounded_execution_guard.py:133-143 | Over a whole run neither counter falls in its scope. |
| `GuardRuns.DoneAbsorbs` | tools/governance/bounded_execution_guard.py:184-187 | After DONE a run only observes and its snapshot never changes. |
| `GuardRuns.DoneWasVerified` | tools/governance/bounded_execution_guard.py:106-107 | A run that reaches DONE has a turn whose caller declared completion verified. |
| `GuardRuns.FreezeSticks` | tools/governance/bounded_execution_guard.py:146-154 | A frozen candidate stays frozen on its head, and is edited there only with a recorded reason and changed material. |
| `GuardRuns.ReleaseHolds` | tools/governance/bounded_execution_guard.py:191-195 | A released task admits nothing until its material fields change. |
| `GuardFingerprint.PayloadExact` | tools/governance/bounded_execution_guard.py:110-125 | The digested texts of two snapshots are equal exactly when all eight material fields are. |
| `CanonicalJson.EncodeUnique` | tools/governance/remote_desktop_call_gate.py:73-81 | Canonical texts are prefix-free: equal texts followed by anything that may follow mean values that are alike, equal up to the UTF-16 form of their strings. |
| `CanonicalJson.EncodeExact` | tools/governance/remote_desktop_call_gate.py:73-81 | For all JSON values the canonical texts are equal if and only if the values are alike: key order never matters; booleans, integers and floats stay apart; of strings only the UTF-16 form counts. Where every string is joined, as parsers return them, that is equality of values. |
| `CanonicalJson.QuoteExact` | tools/governance/remote_desktop_call_gate.py:73-81 | Quoted strings are equal exactly when their UTF-16 forms are, and for strings as parsers return them exactly when they are. |
| `CanonicalJson.SurrogatePairCollides` | tools/governance/remote_desktop_call_gate.py:73-81 | A string with an unjoined surrogate pair collides with the code point itself: without the restriction the binding is not exact. |
| `CallGate.AllowedExactly` | tools/governance/remote_desktop_call_gate.py:126-151 | Comparing canonical texts decides the same as comparing normalized argument values up to the UTF-16 form of strings, and the same as comparing the values where every string is joined. |
| `CallGate.AllowedByOne` | tools/governance/remote_desktop_call_gate.py:126-151 | An authorized call matches one declaration and no other. |
| `CallGate.Compare` | tools/governance/remote_desktop_call_gate.py:126-151 | The loop authorizes exactly when all declarations are well-formed and pairwise distinct and one matches; each refusal names the first fault. |
| `CallGate.Validate` | tools/governance/remote_desktop_call_gate.py:84-151 | The gate authorizes exactly the calls that the declarations allow up to the UTF-16 form of strings, and by value where every string is joined. |
| `LaneGraph.Dependents` | tools/governance/agent_execution_routing.py:357-363 | Every lane is recorded exactly for the lanes it depends on. |
| `LaneGraph.TopologicalAcyclic` | tools/governance/agent_execution_routing.py:347-374 | A topological order rules out every directed cycle, self-loops included. |
| `LaneGraph.StuckMeansCycle` | tools/governance/agent_execution_routing.py:347-374 | Lanes that all wait for one another contain a cycle. |
| `LaneGraph.Tell` | tools/governance/agent_execution_routing.py:370-373 | Telling the dependents of a processed lane lowers each count once and makes ready exactly those that wait for nothing else. |
| `LaneGraph.FindCycle` | tools/governance/agent_execution_routing.py:347-374 | The check returns true exactly when there is a cycle; the lanes taken from the queue are returned, each at most once, dependencies first; without a cycle they are a topological order of all lanes, and with one the lanes left all wait for one another. |
| `LaneGraph.AcceptedMeansTopological` | tools/governance/agent_execution_routing.py:533-555 | Without self-dependencies the order check accepts exactly the topological orders. |
| `LaneGraph.OrderExistsExactly` | tools/governance/agent_execution_routing.py:347-374 | Some order is acceptable exactly when there is no cycle, and then the sequence of lanes taken from the queue is one. |
| `PathGlobs.SafeSegments` | tools/governance/agent_execution_routing.py:64-76 | The whitespace that the safety check ignores cannot hide an empty, `.` or `..` segment. |
| `PathGlobs.PrefixIsLead` | tools/governance/agent_execution_routing.py:56-61 | For supported globs the textual prefix is the join of the literal segments before the first wildcard. |
| `PathGlobs.OverlapExactly` | tools/governance/agent_execution_routing.py:285-294 | For supported globs the test holds exactly when one literal lead extends the other, segment by segment. |
| `PathGlobs.OverlapNeverMisses` | tools/governance/agent_execution_routing.py:285-294 | Two supported globs that own a common path, themselves or through an ancestor, always overlap. |
| `PathGlobs.SharedExactly` | tools/governance/agent_execution_routing.py:285-294 | Two globs own a common path exactly when they agree segment by segment up to the end of one of them or to a double star. |
| `PathGlobs.OverlapExactWhen` | tools/governance/agent_execution_routing.py:285-294 | The overlap test answers rightly for a pair of globs if and only if they agree in that way whenever one literal lead extends the other. |
| `PathGlobs.OverlapExactForTails` | tools/governance/agent_execution_routing.py:285-294 | With wildcards only as last segment the globs overlap exactly when they own a common path. |
| `PathGlobs.InnerWildcardOverreports` | tools/governance/agent_execution_routing.py:285-294 | With an inner wildcard the test can report globs that share no path: a whole family of examples. |
| `LanePlanner.CheckPaths` | tools/governance/agent_execution_routing.py:424-435 | No problem exactly for a non-empty list of safe, supported globs. |
| `LanePlanner.CheckLeases` | tools/governance/agent_execution_routing.py:448-470 | No problem exactly when every lease is structured; the claims are collected per resource in order, also those of unstructured leases that name one. |
| `LanePlanner.CheckLane` | tools/governance/agent_execution_routing.py:412-471 | No problem exactly for a lane that is valid on its own and whose id is new. |
| `LanePlanner.CheckLanes` | tools/governance/agent_execution_routing.py:408-471 | No problem exactly when every lane is valid and no id repeats; the ids and claims are those of all lanes. |
| `LaneValidation.CheckSharing` | tools/governance/agent_execution_routing.py:473-476 | No problem exactly when no branch (or worktree) identity has two users. |
| `LaneValidation.NotSharedMeansDistinct` | tools/governance/agent_execution_routing.py:473-476 | Then two lanes never have the same valid identity. |
| `LaneValidation.CheckDependencies` | tools/governance/agent_execution_routing.py:478-484 | No problem exactly when every dependency names another lane of the plan. |
| `LaneValidation.GraphAt` | tools/governance/agent_execution_routing.py:348-356 | The dependency dictionary holds for each lane exactly its dependencies among the lanes; of lanes with one id the last counts, and lanes without an id are skipped. |
| `LaneValidation.CheckClaims` | tools/governance/agent_execution_routing.py:489-506 | No problem exactly when every leased resource names one lane as holder, which declares it; leases count exactly for the lanes that declare a fully structured one. |
| `LaneValidation.CheckOverlaps` | tools/governance/agent_execution_routing.py:508-518 | No problem exactly when any two lanes with overlapping globs share a lease that counts. |
| `LaneValidation.CheckConstrained` | tools/governance/agent_execution_routing.py:520-531 | No problem exactly when every constrained resource is named and leased. |
| `LaneGuarantees.CheckOrder` | tools/governance/agent_execution_routing.py:533-555 | No problem exactly for a list of all lanes, each once, with no lane before one it depends on. |
| `LaneGuarantees.CheckStrategy` | tools/governance/agent_execution_routing.py:391-405 | The strategy problems are reported exactly for a strategy that is not allowed or does not fit the number of lanes or the order. |
| `LaneGuarantees.CheckHeader` | tools/governance/agent_execution_routing.py:377-405 | No problem exactly for an allowed effort and strategy, a decision basis, and a fitting number of lanes. |
| `LaneGuarantees.ValidateLanes` | tools/governance/agent_execution_routing.py:377-555 | Validation reports nothing exactly for plans that are valid and acyclic. |
| `LaneGuarantees.OwnershipDisjoint` | tools/governance/agent_execution_routing.py:489-518 | In an accepted plan a concrete path owned by two lanes is covered by a resource that both lease and that exactly one lane of the plan holds and declares. |
| `LaneGuarantees.StrayHolderIgnored` | tools/governance/agent_execution_routing.py:491-506 | Claims whose holder is no lane are ignored next to others: the resource is faulted exactly when those do not name a single lane, or nobody declares it for that lane; alone they are rejected. |
| `LaneGuarantees.OrderOkExactly` | tools/governance/agent_execution_routing.py:533-555 | For distinct, valid lanes the order check accepts exactly the listed topological orders. |
| `LaneGuarantees.OrderImpliesAcyclic` | tools/governance/agent_execution_routing.py:486-487 | The order check implies the cycle check: an otherwise valid plan has no cycle. |
| `LaneGuarantees.ProcessingOrderAccepted` | tools/governance/agent_execution_routing.py:533-555 | The sequence in which the cycle check processes an acyclic plan is an accepted order. |
| `ControlCommand.ParsePrint` | tools/governance/integration_capability_routing.py:301-318 | Parsing a printed command for an allowed repository gives its coordinates back. |
| `ControlCommand.PrintParse` | tools/governance/governed_merge_queue_executor.py:239-249 | Whatever the parser accepts is a valid command, and printing it gives the text back. |
| `ControlCommand.ParseExactly` | tools/governance/governed_merge_queue_executor.py:44-48 | The parser accepts exactly the closed grammar. |
| `IntegrationCapability.RequestParses` | tools/governance/integration_capability_routing.py:262-318 | The request of a delegated decision parses to its own coordinates and to the main commit that canary and observer both saw. |
| `IntegrationCapability.ForeignRequest` | tools/governance/integration_capability_routing.py:301-318 | A request printed for any other repository, even one with blanks in its name, is never accepted by the parser. |
| `SubmissionRouting.AttemptIdExactly` | tools/governance/merge_queue_submission_routing.py:41 | The executor's attempt id is admissible exactly when the digits of comment id and epoch time total 3 to 115. |
| `SubmissionRouting.QualifiedAdmittedExactly` | tools/governance/merge_queue_submission_routing.py:247-305 | For a qualified target the route and the request fail exactly for that length, and the request is bound to the qualified head. |
| `SubmissionRouting.RequestBound` | tools/governance/merge_queue_submission_routing.py:247-305 | A request is built exactly when attempt, freeze and authorization agree and are fresh, and it carries the head they agree on. |
| `SubmissionRouting.ConfirmationBinds` | tools/governance/merge_queue_submission_routing.py:308-381 | Whatever submissions one observation confirms have the same target, head and UUID and strictly earlier receipts; only their attempt ids may differ. |
| `SubmissionRouting.ConfirmationIgnoresAttemptId` | tools/governance/merge_queue_submission_routing.py:308-381 | With another attempt id the same observation confirms the submission exactly when that id is admissible. |
| `QueueServer.Connection.Rest` | tools/governance/governed_merge_queue_executor.py:89-133 | A request succeeds exactly for an allowed status with an object body; it is on the trace in any case. |
| `QueueServer.ExecutorSequence.Next` | tools/governance/governed_merge_queue_executor.py:167-173 | Each observation gets the next larger number. |
| `QueueChecks.NormalizeNormal` | tools/governance/governed_merge_queue_executor.py:180-206 | Normalizing inputs again, as the second qualification does, changes nothing. |
| `QueueChecks.GateAccepted` | tools/governance/governed_merge_queue_executor.py:322-345 | An accepted gate has a successful run on the exact head and no later run of the gate there. |
| `QueueChecks.WorkflowAccepted` | tools/governance/governed_merge_queue_executor.py:347-401 | An accepted workflow has a successful run of the target and no later one that counts, related to the pull request or to none. |
| `QueueProtocol.Executor.Qualify` | tools/governance/governed_merge_queue_executor.py:286-412 | Qualification only reads, in the order control comment, pull request, gate, workflows, and success means each answer passed. |
| `QueueProtocol.Executor.CheckPrincipal` | tools/governance/governed_merge_queue_executor.py:535-566 | Success means credential owner, active membership and permission were read in this order and all name the actor. |
| `QueueProtocol.Executor.SendFenced` | tools/governance/governed_merge_queue_executor.py:589-602 | The submission is sent only right after a read of protected main that equals the bound commit. |
| `QueueProtocol.Executor.ReadBackRequest` | tools/governance/governed_merge_queue_executor.py:441-490 | Success means the server's record and the pull request were read, with the same UUID, the queue and the exact head, and a larger sequence number. |
| `QueueProtocol.Executor.SettleAccepted` | tools/governance/governed_merge_queue_executor.py:611-657 | After a 202 with a UUID the receipt is persisted before anything else, and when that fails nothing else happens; it fails if and only if the answer, the persistence or the readback lacks something. |
| `QueueProtocol.Executor.Reconcile` | tools/governance/governed_merge_queue_executor.py:659-691 | After 200 or 409 there are only reads, and no receipt; it fails if and only if the readback does. |
| `QueueProtocol.Executor.Submit` | tools/governance/governed_merge_queue_executor.py:519-691 | For any server: the trace is reads only, or a second qualification, the principal, the fence and one submission with what may follow it; the outcome claims exactly what the trace holds; a submission that was sent fails if and only if its answer, the persistence or the readback lacks something; and when nothing was sent, an input, an answer or the request did not pass. |
| `QueueProtocol.Executor.Execute` | tools/governance/governed_merge_queue_executor.py:694-727 | The same for a whole execution with both qualifications, failures before and after the submission included. |
| `QueueGuarantees.AtMostOneSubmission` | tools/governance/governed_merge_queue_executor.py:519-691 | At most one submission per execution. |
| `QueueGuarantees.PersistedFirst` | tools/governance/governed_merge_queue_executor.py:493-657 | A receipt is persisted exactly once, right after the submission it belongs to, and before every later request. |
| `QueueGuarantees.OutcomeHonest` | tools/governance/governed_merge_queue_executor.py:611-691 | An outcome is an acceptance exactly for a 202; an acceptance has a stored receipt, one UUID, the exact head and a strictly larger sequence; a reconciliation leaves no receipt. |
| `QueueGuarantees.AcceptanceBound` | tools/governance/governed_merge_queue_executor.py:645-657 | An acceptance binds queue and exact head twice, and one UUID in three places. |
| `QueueGuarantees.SubmissionFenced` | tools/governance/governed_merge_queue_executor.py:589-608 | Every submission had read the command that asks for it, and immediately before it protected main as that command binds it. |
| `QueueGuarantees.SubmissionByMember` | tools/governance/governed_merge_queue_executor.py:535-566 | Every submission is made in the name of an active member with permission, as read before it. |
| `QueueGuarantees.GateWasGreen` | tools/governance/governed_merge_queue_executor.py:322-345 | Before every submission outside Atlas the latest run of the gate on the exact head had succeeded. |
| `QueueGuarantees.WorkflowWasGreen` | tools/governance/governed_merge_queue_executor.py:347-401 | Before every submission each source workflow had a decisive successful run. |
| `QueueGuarantees.CanaryFence` | tools/governance/integration_capability_routing.py:193-318 | End to end: a submission for a delegated request has, as its immediately preceding request, a read of protected main equal to the commit sealed in the decision, which canary and observer both saw. |
| `QueueGuarantees.QualifiedReachesSubmission` | tools/governance/governed_merge_queue_executor.py:567-588 | For qualified coordinates the rejecting branches are unreachable except for the length of the attempt id. |
| `QueueGuarantees.AcceptedConfirmed` | tools/governance/merge_queue_submission_routing.py:342-381 | An accepted outcome of the executor is a confirmed submission by the routing rules while it is fresh. |
| `Continuation.WrittenPairs` | tools/governance/agent_continuation_policy.py:371-402 | In accepted writes DONE goes with terminal, parked states with release_waiting or stop_reinvoke_required, and RUNNING and READY with continue_current or rotate_resumable, and conversely. |
| `Continuation.ReleasedContinues` | tools/governance/agent_continuation_policy.py:404-431 | An accepted checkpoint of a released, unfinished task always has a proven continuation. |
| `Continuation.WriteExactly` | tools/governance/agent_continuation_policy.py:434-483 | Given lineage, coordinates and continuity, a checkpoint can be written exactly when its disposition fits the state and its mechanism is proven. |
| `Continuation.NeverResumed` | tools/governance/agent_continuation_policy.py:484-513 | Terminal and same-session checkpoints are never resumed, whatever the authorities say. |
| `Continuation.WrittenThenRead` | tools/governance/agent_continuation_policy.py:484-513 | A checkpoint accepted when written is resumable later exactly when its own mechanism fired and the authorities vouch for the transition. |
| `Continuation.DecisionMatchesDisposition` | tools/governance/agent_continuation_policy.py:384-402 | The guard's decision to release the session agrees with the disposition of the checkpoint written in its state. |
| `Continuation.TerminalIsFinal` | tools/governance/agent_continuation_policy.py:484-513 | After a terminal checkpoint nothing is resumed and every guard run only observes. |
| `Continuation.ReleasedWaits` | tools/governance/agent_continuation_policy.py:404-431 | While a released task waits unchanged the guard admits nothing, and a proven mechanism carries it on. |
| `ContinuationRuns.CourseIsRun` | docs/agents/contracts/PERSISTENT_AUTONOMOUS_CONTINUATION_POLICY.md:11-31 | However many workers a task has, the guard decisions of its course make one run of the guard, so budgets and freeze outlive every worker. |
| `ContinuationRuns.ActingAfterRelease` | docs/agents/contracts/PERSISTENT_AUTONOMOUS_CONTINUATION_POLICY.md:127-143 | After a checkpoint that gives ownership up, every later admitted action has in between a resumption of that very checkpoint, whose own mechanism fired and whose transition is proven. |
| `ContinuationRuns.MaterialAfterRelease` | docs/agents/contracts/BOUNDED_AUTONOMOUS_EXECUTION_POLICY.md:48-50 | And when the guard had released the task, its material fields have changed in between. |
| `ContinuationRuns.NothingAfterTerminal` | docs/agents/contracts/PERSISTENT_AUTONOMOUS_CONTINUATION_POLICY.md:127-143 | After a terminal checkpoint a task is only observed: no resumption, no checkpoint, no admitted action. |
| `ContinuationRuns.ResumedAgainExactly` | tools/governance/agent_continuation_policy.py:483-513 | Until another checkpoint is written, a checkpoint that was resumed is resumed again if and only if its own mechanism fired, the transition is proven and the state matches; whether a worker owns the task already is not asked. |
| `ContinuationRuns.ResumedTwice` | tools/governance/agent_continuation_policy.py:483-513 | The same answers of the authorities resume a checkpoint twice with no checkpoint in between, and each resumption makes an owner: that one worker at most owns a task is up to the authorities. |
| `ContinuationRuns.TwoOwners` | tools/governance/agent_continuation_policy.py:483-513 | A concrete checkpoint and answers for which that happens, under every guard. |
| `Continuation.SelectSurface` | tools/governance/agent_continuation_policy.py:516-577 | An untrusted task or invalid evidence is rejected; the result is the first compatible surface that is available and authorized; it fails for lack of one exactly when there is none. |
| `Statements.CommentRemoved` | tools/governance/central_agent_policy.py:367 | The first comment is cut out from its opening to the first end mark behind it, whatever it contains, and the rest is treated alike. |
| `Statements.OpenExactly` | tools/governance/central_agent_policy.py:361-385 | A fence is open exactly from a line that opens it outside every fence until the first line that closes it: same character, at least as long, nothing after it. |
| `Statements.Operative` | tools/governance/central_agent_policy.py:361-385 | The lines of the text without its comments; those of fenced blocks and quoted lines become blank, every other line stays. |
| `Statements.SentencesConcat` | tools/governance/central_agent_policy.py:460-463 | Splitting a text after sentence ends loses no word. |
| `Statements.SentencesSplit` | tools/governance/central_agent_policy.py:460-463 | Every part but the last ends a sentence, and no part holds a sentence end inside. |
| `Statements.Split` | tools/governance/central_agent_policy.py:429-480 | The words of all statements are the words of all lines in order; blank lines and list items are boundaries, and directives are unless they continue something incomplete from a boundary on; every other boundary follows a sentence end. |
| `Statements.BlankSeparates` | tools/governance/central_agent_policy.py:465-469 | No statement crosses a blank line. |
| `Statements.ItemStarts` | tools/governance/central_agent_policy.py:470-478 | Every list item begins the statement that holds its first word. |
| `Statements.HeadingsByLine` | tools/governance/central_agent_policy.py:430 | Taking headings out of a text takes out exactly the words of their lines and of the line that a heading without a title swallows. |
| `Statements.StatementsOf` | tools/governance/central_agent_policy.py:361-480 | From text to statements: their words are exactly the words of the lines that are outside comments, neither fenced nor quoted, no heading and not swallowed by one, in order. |
| `Statements.ContributionOfLine` | tools/governance/central_agent_policy.py:361-480 | A fenced or quoted line contributes no word to any statement; every other line contributes all of its words or, to a heading, none. |

## Left out

- Git subprocesses, HTTP, argument parsing, environment and JSON file loading: represented by oracles (`ls-remote`, REST answers, clock, persistence, authorities) or left out.
- Git configuration rejections, endpoint identity, linked worktrees and hidden index entries: one `Query` with an arbitrary answer stands for each such check in `Publisher`.
- `StableReader.Reader.EnterAll`: what the levels above the branch's own directory lead to at each call is an oracle, and only the last directory can be missing.
- `StableReader.Reader.StableHead`: under arbitrary writers the hierarchy is compared once, before classification, as in the source; the claim about the final checks is relative to the pinned directory. A close that fails has released its descriptor, as on Linux; a file is read in one call instead of chunks, and an inode number is not reused while a descriptor pins it.
- `Publisher.Publisher.CreateBundle`: a bundle is known by the call that wrote it and by the head it advertises; its digest is not modelled, and other processes do not touch the bundle path.
- `Publisher.Publisher.BundleAndPush`: when no reading comes back after the push, the contract does not name the call that failed.
- `SystemCalls.World.Push`: Git's own push is one compare-and-swap under the branch lock, with any exit code; other refs are not modelled.
- `QueueProtocol.Executor.Submit`: how one answer is judged is a parameter; `QueueChecks.Judging` is the judgement of the source. A JSON object is known by the members that the executor looks up, an id that is neither integer, boolean nor falsy is converted by an oracle, and error texts are reduced to the kind of exception.
- `QueueChecks.WorkflowAccepted`: which paths, events and ids a repository's workflows have comes from the policy and is a parameter.
- `ControlCommand.ParsePrint`: Python refuses to convert numerals of more than 4300 digits; here every numeral is converted.
- `CanonicalJson.EncodeExact`: finite floats are known by their `repr`, which is taken to be injective.
- `GuardFingerprint.PayloadExact`: SHA-256 is an uninterpreted function of the text, so equality of fingerprints is known only as far as the texts.
- `ExecutionGuard.DecisionContinues`: policy validation, field types and the optional observer fields of snapshots are left out.
- `LanePlanner.CheckLane`: word characters beyond ASCII are whatever Unicode makes them, through an oracle; strings are sequences of Unicode scalar values.
- `LaneGuarantees.ValidateLanes`: the other parts of packet validation (preflight freshness, host actions) are left out.
- `Continuation.WriteExactly`: the authorities give one answer per question during a validation; timestamps are integer seconds and policy validation is assumed.
- `ContinuationRuns.ActingAfterRelease`: that only the worker owning a task operates on it and writes is the documented rule of ownership, which no tool tests; the two tools themselves are called separately.
- `Statements.Operative`: indentation and the info string of a fence follow the source, which is laxer than section 4.5 of CommonMark.
- `Statements.Split`: the patterns that recognize items, directives and unfinished lines are arbitrary predicates on words.
- Prose classification by regular expressions, policy-schema validators, release manifests, drift audit and provider adoption: field comparisons that would add only easy members.
- Liveness of the pipeline: actors are compared without case in capability routing but exactly in the executor, so a delegated decision does not imply acceptance.
