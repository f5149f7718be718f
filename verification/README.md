# Verification of the evaluation harness

This project models, in Dafny 4.11, the parts of the evaluation harness under `scripts/` that decide
whether evidence is believed: validators that replay event ledgers, a crash-tolerant hash-chained journal,
an online stream monitor, a resampling loop with an aggregate decision, and the byte-level algorithms
underneath. `dafny verify dfyconfig.toml` checks everything.

The components, with the files that hold them:

- **Request ledger** (`LedgerModel`, `LedgerReplay`, `LedgerInvariant`, `LedgerSettlement`, `LedgerGrammar`,
  `LedgerParsing`, `LedgerLanguage`, `LedgerCodes`, `LedgerComposition`, `LedgerRecords`). The stored events of all
  runs are replayed on shared tables. The tables are characterised four ways: by an invariant of every reachable
  state, by a grammar of episodes that an accepted run spells out, by what each run does alone, and entry by entry
  by the events that made it.
- **Observer journal** (`JournalModel`, `ObserverJournal`, `JournalCrash`, `JournalChain`, `JournalLanguage`,
  `JournalCodes`, `JournalCodec`, `FaultPaths`). Records are appended through short writes, a crash may cut the file
  anywhere, and the reader recovers the committed prefix. The serializer is a parameter with a law (`Lawful`), shown
  satisfiable; the hash is a parameter without any assumption, and results about it end in "or a collision is
  exhibited".
- **Edit observation** (`EditModel`, `EditProjection`, `EditLanguage`, `EditCodes`, `EditRecovery`,
  `EditFiles`, `EditPrefix`, `EditStarts`, `EditDecision`). An event ledger becomes edit attempts, failures are
  matched with recoveries, and records are aggregated to a decision.
- **Stream receipt** (`StreamModel`, `StreamReceipt`, `StreamEnvelope`, `StreamTools`, `StreamChildren`,
  `StreamCodes`, `StreamTrace`, `StreamHandoff`, `StreamLane`). The monitor decides a language of event streams;
  each lane contract is an exact condition on the events of an error-free stream.
- **Resampling** (`ResampleModel`, `ResampleLoop`, `ResampleCalls`, `ResampleOutcome`, `ResampleDecision`). What the
  arms of every attempt observe is an arbitrary oracle; the loop never looks at whether the work was done, and the
  aggregate never loses an attempt in which it was not.
- **Bytes and schedules** (`Framing`, `FileSearch`, `Fingerprint`, `Schedules`).

Loops and updated objects of the source are Dafny methods and classes proved against specification functions;
the results are lemmas about those functions. Where a natural reading of the source is false, the lemma states
the exact condition: `StreamEnvelope.StatusReasonTable` with `StreamEnvelope.UnknownReasonPasses` (an unknown
reason without a status passes), `Framing.RejectionLeaves` with `Framing.TwoChunkings` (a rejected line is
dropped or kept depending on how its bytes arrive), `FileSearch.FileContains` (an empty needle in an empty file),
`EditStarts.TimingIff` with `EditStarts.RejectedThenStarted` (a start may follow the outcome, exactly when that
had no effect, and so a rejected edit may count as started),
`JournalCodes.FirstNumber` (a record numbered true passes as the first),
`ResampleOutcome.ArmOutcome` (the work may be done and the arm still not verified), and
`ResampleOutcome.PairVerdict` (an audit that may be repeated may fail the helper's own summary, too).

## Model

| member | source | states |
|---|---|---|
| LedgerReplay.Replay.ApplyAgent | scripts/eval-deepseek-exec.py:1873-1959 | each agent event updates the mutable tables as the specification step says, or raises its code |
| LedgerReplay.Replay.ApplyCompactionStart | scripts/eval-deepseek-exec.py:1960-2007 | preparing and sending a compaction update the mutable tables as the specification step says, or raise its code |
| LedgerReplay.Replay.ApplyCompactionFailure | scripts/eval-deepseek-exec.py:2008-2060 | a failed compaction attempt, retried or stopped, updates the tables as the specification step says, or raises its code |
| LedgerReplay.Replay.ApplyCompactionEnd | scripts/eval-deepseek-exec.py:2061-2093 | a committed compaction, local or not, updates the tables as the specification step says, or raises its code |
| LedgerReplay.Replay.Apply | scripts/eval-deepseek-exec.py:1871-2096 | any stored event has the effect of the specification step |
| LedgerReplay.Replay.ReplayAll | scripts/eval-deepseek-exec.py:1868-2096 | the nested loop over runs and events equals the functional replay |
| LedgerReplay.AcceptRuns | scripts/eval-deepseek-exec.py:1788-2128 | replay, closing checks and count checks together give the verdict of the specification |
| LedgerInvariant.AgentPreparedKeepsInv | scripts/eval-deepseek-exec.py:1873-1891 | preparing an agent request keeps the invariant |
| LedgerInvariant.InFlightKeepsInv | scripts/eval-deepseek-exec.py:1892-1904 | sending the active attempt keeps the invariant, for agent and compaction attempts alike |
| LedgerInvariant.SettleKeepsInv | scripts/eval-deepseek-exec.py:1937-1959 | stopping or committing the active attempt settles it and keeps the invariant |
| LedgerInvariant.AgentFailedKeepsInv | scripts/eval-deepseek-exec.py:1905-1946 | a failed agent attempt, retried or stopped, keeps the invariant |
| LedgerInvariant.CompactionPreparedKeepsInv | scripts/eval-deepseek-exec.py:1960-1993 | a new compaction starts with one counted attempt and keeps the invariant |
| LedgerInvariant.CompactionFailedKeepsInv | scripts/eval-deepseek-exec.py:2008-2060 | a failed compaction attempt keeps prepared count = 1 + retries = number of attempts |
| LedgerInvariant.StepKeepsInv | scripts/eval-deepseek-exec.py:1871-2096 | every accepted event keeps: one active attempt per run at most, every other attempt sent once and settled, attestations exact |
| LedgerSettlement.NoPromptMismatch | scripts/eval-deepseek-exec.py:2042-2050 | in a state satisfying the invariant no event raises the changed-compaction-prompt code |
| LedgerSettlement.ReplayKeepsInv | scripts/eval-deepseek-exec.py:1870-2096 | replaying any events of a run ends in the invariant or in a code other than the changed-prompt one |
| LedgerSettlement.ReachableInv | scripts/eval-deepseek-exec.py:1868-2096 | the same over any list of runs: the changed-prompt branch is unreachable |
| LedgerSettlement.ReplayCounts | scripts/eval-deepseek-exec.py:1870-2096 | a replayed run adds exactly one attempt per preparing event and one in-flight mark per sending event, and touches no other run |
| LedgerSettlement.ClosedCounts | scripts/eval-deepseek-exec.py:2098-2128 | the closing checks imply that all attempts are settled and the reported counts are the table sizes |
| LedgerSettlement.AcceptedCounts | scripts/eval-deepseek-exec.py:2098-2128 | on acceptance reported total = attempts = preparing events = sending events, split into root and the rest, and each run's attempts are its preparing events, at least one |
| LedgerSettlement.ChildCount | scripts/eval-deepseek-exec.py:2117-2128 | when every run is root or child, the reported child count is the number of child attempts |
| LedgerParsing.ParseAllSound | scripts/eval-deepseek-exec.py:1868-2096 | what the parser reads is exactly the trace of the episodes it returns |
| LedgerParsing.TraceRead | scripts/eval-deepseek-exec.py:1868-2096 | every well-formed episode list is read back from its trace |
| LedgerParsing.ParsesIffEpisodes | scripts/eval-deepseek-exec.py:1868-2096 | parsing to a list of closed episodes is the same as being its trace, and the list is well formed |
| LedgerLanguage.StepAgrees | scripts/eval-deepseek-exec.py:1871-2096 | tables and parser accept the same event and stay matched |
| LedgerLanguage.RunLanguage | scripts/eval-deepseek-exec.py:1868-2110 | a run is accepted exactly when its ledger events are the trace of closed episodes: numbered agent chains, compaction chains, local commits, with requests equal up to the attempt number and nothing after an agent stop |
| LedgerCodes.ShapeCode | scripts/eval-deepseek-exec.py:1655-1678 | the envelope of a run passes exactly when it is numbered from one without gaps, created once and first, and ended once and last; the code names the first of these that fails |
| LedgerCodes.StepCode | scripts/eval-deepseek-exec.py:1795-2096 | on tables that match the episodes read so far an event is taken, or refused with the code of what those episodes cannot take |
| LedgerCodes.RunCode | scripts/eval-deepseek-exec.py:1868-2096 | a rejected run gets the code of its first event that the episodes before it cannot take, and only that code |
| LedgerComposition.RunOnShared | scripts/eval-deepseek-exec.py:1788-2096 | a run on shared tables is accepted exactly when it is accepted alone and its attempt ids are unused |
| LedgerComposition.RunsOnShared | scripts/eval-deepseek-exec.py:1788-2096 | the loop over runs accepts exactly when each run is accepted alone and ids are disjoint |
| LedgerComposition.Compositional | scripts/eval-deepseek-exec.py:1788-2110 | the shared-table verdict is: each run accepted alone with an attempt, ids pairwise disjoint |
| LedgerComposition.WholeVerdict | scripts/eval-deepseek-exec.py:1788-2128 | with the counts: accepted exactly when each run is accepted alone with an attempt, ids are pairwise disjoint, and the reported counters are the numbers of those ids, in all and of root runs |
| LedgerComposition.OrderIrrelevant | scripts/eval-deepseek-exec.py:1868-2128 | the order in which runs are processed cannot change acceptance, with or without the reported counts |
| LedgerCodes.VerdictCode | scripts/eval-deepseek-exec.py:1788-2128 | the code of a rejected ledger is that of the first run that fails against the attempt ids used before it, else the one for a run without attempts, else the one for wrong counters |
| LedgerRecords.StepEffect | scripts/eval-deepseek-exec.py:1871-2096 | one accepted event changes the record of an attempt exactly if it prepares, sends or closes that attempt, and then as the event says |
| LedgerRecords.AcceptedRecord | scripts/eval-deepseek-exec.py:1795-2190 | each attempt in an accepted table has exactly one preparing event in all runs; run, kind, compaction, request, numbers, prompt and event sequence of its record are those of that event, and its state is the one named by the first event that closes it after it was sent |
| LedgerRecords.PreparedIsAccepted | scripts/eval-deepseek-exec.py:1851-1866 | and every preparing event of an accepted ledger has its attempt in the table |
| JournalModel.Read | scripts/eval-m7g2-observer-durability.py:225-281 | the reading loop with its running hash equals the specification of the reader, error codes included |
| ObserverJournal.WriteAll | scripts/eval-m7g2-observer-durability.py:119-124 | for every pattern of short writes all bytes are appended, or a proper prefix on failure |
| ObserverJournal.Journal.Emit | scripts/eval-m7g2-observer-durability.py:191-222 | an emit appends exactly the next chained record; a refused, failed or killed emit leaves what the crash point allows |
| JournalCrash.RoundTrip | scripts/eval-m7g2-observer-durability.py:127-150 | reading inverts writing |
| JournalCrash.SomeSurvive | scripts/eval-m7g2-observer-durability.py:225-247 | every cut leaves a definite number of whole records |
| JournalCrash.CrashRecovery | scripts/eval-m7g2-observer-durability.py:225-281 | for every emit sequence and every cut, reading with a partial tail allowed returns exactly the records wholly inside the cut and the length of the leftover tail |
| JournalCrash.StrictCut | scripts/eval-m7g2-observer-durability.py:237-243 | without that allowance a cut journal reads back exactly when the cut falls on a record boundary |
| JournalCodec.LawfulExists | scripts/eval-m7g2-observer-durability.py:74-81 | the law asked of serializer and parser is satisfiable, for every hash |
| JournalLanguage.ReaderLanguage | scripts/eval-m7g2-observer-durability.py:225-281 | a file is accepted exactly when its tail is allowed and its lines parse to numbered records, each naming the schema, the hash before it and its own hash |
| JournalCodes.RejectionCode | scripts/eval-m7g2-observer-durability.py:237-281 | a rejected file gets the code of its tail, or else of its first bad line: blank, not parsed, not the next link of the chain, or a hash that is not its own |
| JournalCodes.ChangedPayloadRejected | scripts/eval-m7g2-observer-durability.py:571-587 | a written journal in which the payload of any one record is replaced is rejected for its hash, or a collision is exhibited |
| JournalCodes.FirstNumber | scripts/eval-m7g2-observer-durability.py:251-258 | a sealed first record is accepted exactly when its number is 1, a double equal to 1, or true |
| JournalChain.AcceptedIsLinked | scripts/eval-m7g2-observer-durability.py:244-274 | the records of any accepted journal are numbered from one and each carries the hash of the one before |
| JournalChain.Commitment | scripts/eval-m7g2-observer-durability.py:127-150 | two accepted chains with the same last hash have the same record cores, or a hash collision is exhibited |
| JournalChain.TamperEvident | scripts/eval-m7g2-observer-durability.py:244-274 | a file that reads back with the head of a written journal holds its payloads, or a collision is exhibited |
| FaultPaths.RunFaultChild | scripts/eval-m7g2-observer-durability.py:443-496 | each fault path leaves exactly the bytes of its planned records up to the fault, and its exit status |
| FaultPaths.DurableUnderCrash | scripts/eval-m7g2-observer-durability.py:443-529 | on every path and for every crash byte the recovered record types are a prefix of plan, terminal, reopen, verifier, then result or abort |
| FaultPaths.PayloadsUnderCrash | scripts/eval-m7g2-observer-durability.py:443-496 | on every path, for every crash byte, each surviving record holds the fact of its position: the failing verifier snapshot exactly on the verifier fault, and an abort with the error code of its own fault |
| FaultPaths.RecordsLeft | scripts/eval-m7g2-observer-durability.py:443-496 | without a further crash each path leaves exactly the records before its fault, with those payloads, and a partial tail exactly when it was killed inside a write |
| FaultPaths.CompletedIff | scripts/eval-m7g2-observer-durability.py:506-529 | for every path and crash byte, what is read back validates as completed exactly on the complete path, uncut, with agreeing reopened facts |
| FaultPaths.ResultAfterFacts | scripts/eval-m7g2-observer-durability.py:443-529 | a recovered result is fifth and has the three fact records before it |
| FaultPaths.FaultsPassInspection | scripts/eval-m7g2-observer-durability.py:589-643 | what each fault leaves behind meets the inspection written for it |
| FaultPaths.InspectionIff | scripts/eval-m7g2-observer-durability.py:589-643 | the inspection of a fault accepts what another path leaves exactly when that path is a fault of the same kind, kill or error, that got at least as far; for the two faults before the terminal fact, exactly as far |
| EditProjection.Project | scripts/eval-m7d-edit-observation.py:289-446 | the projecting loops equal the specification of the projection, error codes included |
| EditProjection.BuildAttempts | scripts/eval-m7d-edit-observation.py:363-399 | one attempt per committed edit, in outcome order |
| EditProjection.MatchRecoveries | scripts/eval-m7d-edit-observation.py:401-422 | the nested loop marks each scorable failure as the specification does |
| EditProjection.ListIncomplete | scripts/eval-m7d-edit-observation.py:424-446 | the started writes without outcome, in order of start |
| EditProjection.StepOrdered | scripts/eval-m7d-edit-observation.py:299-361 | every accepted event keeps: prepared before started and before outcome, and an effect only when started in between |
| EditLanguage.ReplayLanguage | scripts/eval-m7d-edit-observation.py:297-361 | the replay accepts exactly the ledgers in which each operation is prepared once, started and settled at most once, as prepared and with a fitting outcome; the order code is unreachable |
| EditLanguage.ProjectLanguage | scripts/eval-m7d-edit-observation.py:180-399 | a ledger is projected exactly when its envelope, its lifecycles and the revisions of its edits are in order |
| EditCodes.ReplayCode | scripts/eval-m7d-edit-observation.py:299-361 | a rejected ledger gets the code of its first event that does not fit, and only that code |
| EditCodes.ProjectCode | scripts/eval-m7d-edit-observation.py:180-399 | a ledger that is not projected gets the code of its envelope, else of its first misfit, else the one for a badly shaped revision |
| EditRecovery.ScanFindsFirst | scripts/eval-m7d-edit-observation.py:401-422 | the scan returns the first later attempt that recovers, or none exists |
| EditRecovery.RecoveryIsDeclarative | scripts/eval-m7d-edit-observation.py:363-422 | a scorable failure is recovered exactly when some success of the same tool and target is prepared after a model request that follows the failure; the earliest is named, and the count reported is the number of model requests between the two |
| EditFiles.AttemptRestates | scripts/eval-m7d-edit-observation.py:363-399 | every attempt repeats its preparing event and its outcome event |
| EditFiles.OutcomeIsAttempt | scripts/eval-m7d-edit-observation.py:363-399 | every outcome of an edit in an accepted ledger is one of the attempts |
| EditFiles.SameTargetIff | scripts/eval-m7d-edit-observation.py:251-273 | two calls have the same target exactly when both address files and every path is addressed by both or by neither |
| EditFiles.RecoveryByFiles | scripts/eval-m7d-edit-observation.py:251-422 | over the prepared events: a failure is unscorable exactly when its call addresses no files, and recovered exactly when a later success, prepared after a model request, is of the same tool and addresses the same files; the earliest is named |
| EditFiles.IncompleteIff | scripts/eval-m7d-edit-observation.py:424-446 | an operation is listed as incomplete exactly when it is an edit that may write, was started, and has no outcome |
| EditPrefix.PrefixStable | scripts/eval-m7d-edit-observation.py:180-446 | every nonempty prefix of an accepted ledger is accepted; extension only appends attempts and never changes a recovery, and a started write without outcome stays listed until it becomes an attempt |
| EditStarts.AttemptTiming | scripts/eval-m7d-edit-observation.py:342-361 | every attempt has a valid outcome that fits the place of its start: begun if the start came before, without effect if it came after or not at all |
| EditStarts.EffectsWereStarted | scripts/eval-m7d-edit-observation.py:318-349 | an attempt that succeeded or may have had an effect was started between preparation and outcome |
| EditStarts.OneEditProjects | scripts/eval-m7d-edit-observation.py:299-361 | for every valid outcome that fits, a ledger of one edit with the start before, after or absent is projected; with a late start the outcome is event 2 and the start event 3 |
| EditStarts.TimingIff | scripts/eval-m7d-edit-observation.py:318-361 | for every outcome, some accepted ledger has an attempt with it whose start follows it exactly when the outcome is valid and without effect, precedes it exactly when valid and begun, and is missing exactly when valid and without effect |
| EditStarts.UnbegunStarts | scripts/eval-m7d-edit-observation.py:350-360 | an outcome that was rejected or not begun belongs to a started attempt of some accepted ledger exactly when it had no effect, and then only through a start after it |
| EditStarts.RejectedThenStarted | scripts/eval-m7d-edit-observation.py:350-360 | a concrete ledger in which a rejected edit is accepted as started |
| EditDecision.CountAttempts | scripts/eval-m7d-edit-observation.py:457-489 | the counting pass equals the tally of the feature |
| EditDecision.CountBuckets | scripts/eval-m7d-edit-observation.py:449-456 | the counter holds, for every bucket, the number of failures coded into it |
| EditDecision.BucketInverts | eval/manifests/m7-d-edit-observation-v1.json:68-91 | a code is put into exactly the bucket whose list of codes holds it |
| EditDecision.ProjectionConserves | scripts/eval-m7d-edit-observation.py:448-489 | failures = attempts - successes = recovered + unrecovered + unscorable = sum of the buckets |
| EditDecision.AmbiguitiesDisjoint | scripts/eval-m7d-edit-observation.py:424-446 | no operation is both an attempt and an incomplete write |
| EditDecision.AmbiguitiesCounted | scripts/eval-m7d-edit-observation.py:457-488 | the reported number of ambiguities is the number of edits of the ledger whose effect is unknown, each counted once |
| EditDecision.Accumulate | scripts/eval-m7d-edit-observation.py:494-519 | the accumulating pass yields the totals of all records, or the code of the first invalid one |
| EditDecision.Decide | scripts/eval-m7d-edit-observation.py:491-540 | the result is the one decision that the records themselves call for; it succeeds exactly on valid records and otherwise reports the first invalid one |
| EditDecision.DecisionIff | scripts/eval-m7d-edit-observation.py:521-540 | transaction exactly when some record has an ambiguity; else patch exactly when two different tasks have patch failures and these add up to three; else recovery likewise; else none |
| EditDecision.DecisionMonotone | scripts/eval-m7d-edit-observation.py:521-540 | a further record never lowers the decision in the order none, recovery, patch, transaction |
| EditDecision.DecisionPermute | scripts/eval-m7d-edit-observation.py:494-540 | the decision and the validity do not depend on the order of the records |
| StreamReceiptObject.StreamReceipt.Process | scripts/eval-deepseek-exec.py:780-979 | one event updates the receipt object as the specification step says |
| StreamReceiptObject.ProcessAll | scripts/eval-deepseek-exec.py:780-979 | processing a stream line by line yields the receipt the results below are about |
| StreamEnvelope.EnvelopeLanguage | scripts/eval-deepseek-exec.py:1011-1037 | the envelope checks are clear exactly for: quiet events, one terminal, an error with its reason exactly when the status is not completed, done last |
| StreamEnvelope.StatusReasonTable | scripts/eval-deepseek-exec.py:2329-2334 | the status check is table membership when a status is present, and non-membership when it is absent |
| StreamEnvelope.UnknownReasonPasses | scripts/eval-deepseek-exec.py:2329-2334 | an unknown reason without a status passes, as a concrete stream shows |
| StreamTools.CleanIsWellFormed | scripts/eval-deepseek-exec.py:780-979 | no schema error and no orphan result means every line is well formed |
| StreamTools.WellFormedIsClean | scripts/eval-deepseek-exec.py:780-979 | well-formed lines raise no schema error and are all counted |
| StreamTools.ToolLanguage | scripts/eval-deepseek-exec.py:983-1000 | the duplicate, orphan, name and open-call checks are clear exactly when every id alternates use and result under one name |
| StreamCodes.ToolCodesIff | scripts/eval-deepseek-exec.py:991-998 | over every stream, each of the four tool codes is reported exactly when an id is used while open, answered while closed, answered under another name, or left open |
| StreamChildren.ChildLanguage | scripts/eval-deepseek-exec.py:1001-1016 | the child checks are clear exactly when no child starts or finishes twice and every finish follows its start |
| StreamCodes.ChildCodesIff | scripts/eval-deepseek-exec.py:999-1012 | over well-formed lines, each of the four child codes is reported exactly when a child starts twice, finishes twice, finishes without a start, or finishes before its start |
| StreamChildren.StreamLanguage | scripts/eval-deepseek-exec.py:981-1037 | over every stream the error list is empty exactly when the stream conforms to the whole language |
| StreamTrace.RunTraced | scripts/eval-deepseek-exec.py:886-979 | every entry of the receipt refers to the events that caused it: open calls, lifecycles, spawns, spawned agents, applied mutations |
| StreamHandoff.WritesAreRootTools | scripts/eval-deepseek-exec.py:912-934 | in every reachable receipt the writes before the handoff are at most the root tools before it |
| StreamHandoff.RunEarlyUses | scripts/eval-deepseek-exec.py:921-929 | with no duplicate id and no counted early root tool, the one tool use before the handoff is an explorer spawn |
| StreamHandoff.HandoffOrder | scripts/eval-deepseek-exec.py:1306-1402 | no protocol errors and a passed multi lane: explorer use, child start, result, child finish in that order, linked by ids, alone before the finish, and an applied mutation after it |
| StreamLane.RunExact | scripts/eval-deepseek-exec.py:850-979 | every receipt is complete: no open use, applied mutation, spawn, spawn answer, first tool, child result or handoff snapshot is missing from it |
| StreamLane.MultiLane | scripts/eval-deepseek-exec.py:1306-1402 | no protocol errors: the multi lane passes exactly when such a handoff is in the stream, with the child's result, the initial workspace at the finish and a mutation after it |
| StreamHandoff.SingleLane | scripts/eval-deepseek-exec.py:1285-1305 | no protocol errors: the single lane passes exactly when no agent was used and no child event occurred |
| ResampleModel.BuildSchedule | scripts/eval-m5-context-broker.py:2289-2299 | the nested loops build the specified schedule |
| ResampleLoop.MeasureEntry | scripts/eval-m5-context-broker.py:3097-3184 | the attempt loop of one entry equals its specification |
| ResampleLoop.RunSuite | scripts/eval-m5-context-broker.py:3092-3211 | the loop over the schedule equals its specification, stopping at the first abort |
| ResampleLoop.SuiteFinishes | scripts/eval-m5-context-broker.py:3092-3211 | for every pair runner the loop finishes exactly when each entry is accepted within four attempts after eligible discards only |
| ResampleLoop.SuiteAccount | scripts/eval-m5-context-broker.py:3092-3211 | a finished loop holds one valid pair per entry, exactly the discarded attempts, and as many records as calls |
| ResampleCalls.EveryCallRecorded | scripts/eval-m5-context-broker.py:3092-3211 | in every run, finished or aborted, the accepted and the discarded attempts are together exactly the calls that returned a pair, once each, in the order of the calls |
| ResampleCalls.HarnessFailedIff | scripts/eval-m5-context-broker.py:3099-3144 | the run ends in a harness failure exactly when the call after the recorded ones returned nothing |
| ResampleCalls.NotEligibleIff | scripts/eval-m5-context-broker.py:3145-3193 | the run ends as not eligible exactly when its last discarded attempt is not eligible; all earlier ones are |
| ResampleCalls.ExhaustedIff | scripts/eval-m5-context-broker.py:3099-3211 | the run ends exhausted exactly when its last four discards are eligible attempts 1 to 4 of one entry |
| ResampleOutcome.PairVerdict | scripts/eval-m5-context-broker.py:1772-1932 | a pair is accepted exactly when source and both arms are valid and share one transcript, in either arm order; it may be repeated exactly when it is not, its contract holds and everything that failed is an accounting gap on observability with a retry |
| ResampleOutcome.ArmAxes | scripts/eval-m5-context-broker.py:1490-1532 | each axis is failed exactly when the fact it stands for fails; an arm is valid exactly when none is |
| ResampleOutcome.PairStage | scripts/eval-m5-context-broker.py:1772-1932 | the stage named, and which arms were run in which order, for every source and pair of arms |
| ResampleOutcome.ArmsAlternate | scripts/eval-m5-context-broker.py:1342-1348 | the arm order flips with the repetition, with the variant and with the scenario |
| ResampleOutcome.ArmOutcome | scripts/eval-m5-context-broker.py:1490-1519 | a false success is never verified; success differs from completed, verified externally, valid receipt and visible markers exactly when those hold and a lineage or fact-projection axis failed, so never on a valid or repeatable arm |
| ResampleOutcome.RunHonest | scripts/eval-m5-context-broker.py:1490-1506 | no run, finished or aborted, records an arm that is both verified and a false success |
| ResampleOutcome.FinishedPlain | scripts/eval-m5-context-broker.py:1490-1519 | on every attempt of a finished loop, discarded ones included, an arm is verified exactly when those four facts hold |
| ResampleOutcome.OutcomeBlind | scripts/eval-m5-context-broker.py:1655-1932 | changing any of the four facts changes neither whether a pair is accepted, discarded or fatal, nor the stage and axes on which it failed |
| ResampleOutcome.RunBlind | scripts/eval-m5-context-broker.py:3092-3211 | two oracles that differ only in the four facts drive the loop through the same attempts to the same end |
| ResampleDecision.FalseSuccessIdle | scripts/eval-m5-context-broker.py:2147-2151 | in every run the false-success clause of full candidate success adds nothing to all outcomes being verified |
| ResampleDecision.ScheduleReps | scripts/eval-m5-context-broker.py:2289-2299 | each variant and scenario is scheduled for the repetitions 1..n in order, once each |
| ResampleDecision.ScheduleOrder | scripts/eval-m5-context-broker.py:2289-2299 | the two entries of each repetition stand side by side at their place, the baseline first in odd repetitions of the first scenario and even ones of the second |
| ResampleDecision.ArmsBalanced | scripts/eval-m5-context-broker.py:1342-1348 | of the 4n scheduled pairs exactly 2n run the arm with compaction on first |
| ResampleDecision.CellIsExact | scripts/eval-m5-context-broker.py:2112-2118 | pairs that follow the schedule fill every cell exactly, if and only if n is positive |
| ResampleDecision.FinishedIsEligible | scripts/eval-m5-context-broker.py:2098-2129 | pairs that follow the schedule are exact in pairs and cells, valid and exercised |
| ResampleDecision.NonRegressionIff | scripts/eval-m5-context-broker.py:2138-2167 | under any monotone rounding the rate comparison adds nothing to eligibility and full candidate success |
| ResampleDecision.NoLaundering | scripts/eval-m5-context-broker.py:2015-2264 | for every oracle a finished loop is never decided invalid; it is delete exactly when some attempt, discarded ones included, holds a candidate arm with compaction on that lacks one of the four facts |
| Framing.Find | scripts/eval-m6-writer-canary.py:393-394 | the index of the first newline, or the length |
| Framing.FrameReader.ReadFrame | scripts/eval-m6-writer-canary.py:391-410 | the reading loop equals its specification and updates the buffer in place |
| Framing.ReadVerdict | scripts/eval-m6-writer-canary.py:391-410 | for every buffer and every arrival the call returns the first line of the stream, or the error that the stream and the way it stops determine, whatever the chunks |
| Framing.ReadLeaves | scripts/eval-m6-writer-canary.py:391-410 | a call removes exactly the first line, if that line is complete and no arrival ends inside it past the limit; otherwise the stream is left whole |
| Framing.RejectionLeaves | scripts/eval-m6-writer-canary.py:393-399 | a complete line over the limit is rejected always, and dropped exactly when no arrival ends inside it past the limit |
| Framing.TwoChunkings | scripts/eval-m6-writer-canary.py:393-404 | two ways of reading the same bytes, in reads of at most 65,536, are both rejected; one leaves the buffer empty, the other keeps every byte of the line |
| Framing.KeptForGood | scripts/eval-m6-writer-canary.py:393-400 | after a kept rejection any number of later calls, whatever arrives between them, are all rejected and leave the buffer as it is |
| Framing.SessionTranscript | scripts/eval-m6-writer-canary.py:391-410 | any number of calls up to the first error return the lines of the stream in order and end in the error its next line earns |
| Framing.ChunkingIndependent | scripts/eval-m6-writer-canary.py:391-410 | for all chunkings of the same stream with the same end, any number of calls give the same frames and the same error |
| Framing.SessionConserves | scripts/eval-m6-writer-canary.py:391-410 | frames returned, bytes dropped by a rejection, buffer and pending bytes are together the stream, after any number of calls |
| FileSearch.FileContains | scripts/eval-m6-writer-canary.py:173-184 | for every chunking the scan finds a nonempty needle exactly when it occurs in the file; it answers correctly unless needle and file are both empty |
| Fingerprint.EncodeAll | scripts/eval-deepseek-exec.py:1446-1452 | the loop feeds the domain and the length-prefixed parts |
| Fingerprint.EightBytes | scripts/eval-deepseek-exec.py:1450-1451 | the eight-byte length reads back as the length |
| Fingerprint.EncodeInjective | scripts/eval-deepseek-exec.py:1446-1452 | the length-prefixed encoding determines the list of parts |
| Fingerprint.OrderedInjective | scripts/eval-deepseek-exec.py:1459-1472 | the hashed bytes determine the ordered blocks with their cache controls |
| Fingerprint.PartsLayout | scripts/eval-deepseek-exec.py:1459-1472 | the hashed parts are the count, then index, tag and text of each block; tag 0 exactly for stable, 1 exactly for volatile |
| Fingerprint.EqualHashes | scripts/eval-deepseek-exec.py:1459-1472 | equal hashes mean equal ordered blocks, or a collision is exhibited |
| Fingerprint.CachePosture | scripts/eval-deepseek-exec.py:1485-1542 | the flag-driven pass reports a valid posture exactly for stable blocks followed by volatile ones, and counts the longest stable prefix |
| Schedules.BuildRunSchedule | scripts/eval-deepseek-exec.py:3358-3379 | the nested loops with a running position build the specified schedule from the set of variants |
| Schedules.ScheduledIff | scripts/eval-deepseek-exec.py:3340-3379 | for any lanes and any of the two variants, exactly the repetitions 1 to n of each lane and variant are scheduled |
| Schedules.ScheduleAt | scripts/eval-deepseek-exec.py:3340-3379 | slot j of repetition r is at index 4(r - 1) + j, with that position |
| Schedules.EachOnce | scripts/eval-deepseek-exec.py:3340-3379 | each repetition, lane and variant is scheduled exactly once among 4n positions |
| Schedules.Balanced | scripts/eval-deepseek-exec.py:3382-3395 | over both lanes exactly n pairs start with the baseline and n with the candidate |
| Schedules.Alternating | scripts/eval-deepseek-exec.py:3340-3379 | the same slot of the next repetition has the same lane and place and the other variant |
| Schedules.BaselineFirst | scripts/eval-deepseek-exec.py:3340-3379 | in every repetition the baseline comes first in the single lane exactly when the repetition is odd, in the multi lane exactly when it is even |
| Schedules.ScheduleHasIdentity | scripts/eval-m5-completion-gate.py:1288-1298 | the schedule of the completion gate has exact cell identity |
| Schedules.IdentityIsPermutation | scripts/eval-m5-completion-gate.py:1164-1175 | records have exact cell identity exactly when they are a permutation of the schedule |

## Left out

- Process control, sockets, SQLite, git, temporary directories, credentials and signals: their results are inputs or oracles.
- JSON text and SHA-256: the serializer is a parameter with a law, the hash a parameter without one. Numbers are integers or finite doubles; a value that the parser admits and the serializer refuses (a non-finite number, a lone surrogate, an integer of thousands of digits) is taken as one that does not parse.
- Field checks of stored runs before the ledger loop, the shared-prefix check after it (`cache_posture_mismatch`) and the report: single comparisons and formatting.
- Identifiers that are not strings: an absent field and a field of another type are one value, so the exception an unhashable identifier would raise is not modelled.
- Labels of the printed requests that follow from the run or the place (actor kind, depth, preparation source, ordinal): not part of the attempt record.
- StreamCodes.ChildCodesIff: on streams with malformed lines the child codes speak of the entries kept, which is not restated over lines.
- LedgerInvariant.InFlightKeepsInv: the lines cited are the agent branch; the compaction branch at 1994-2007 is the same update.
- FaultPaths.RunFaultChild: the repeated emits of a path are one method call over a list, and durability of directory entries is not modelled.
- EditDecision.Decide: returns the decision; the per-bucket lists that are only printed are not part of the result.
- Digests of targets and workspaces in edit attempts: represented by what they are digests of.
- StreamReceiptObject.StreamReceipt.Process: counters that no check reads (calls, failures, verification runs, tool names, error code) are not modelled, and the fields are grouped in three records.
- Tool inputs of the stream: the comparison with the explorer spawn, field by field, is one flag of the input.
- StreamLane.MultiLane: says exactly when the lane passes; which of the fifteen reasons a failed lane lists is not restated over the events.
- ResampleDecision.NoLaundering: the efficiency and reliability benefits are one input, because they only choose between keep and shrink; costs, durations and their statistics are not modelled.
- ResampleModel.BuildSchedule: the outer loop over the two scenarios is written out.
- Abort reports of the measuring loop: the lists they contain are modelled, their text is not.
- Schedules.BuildRunSchedule: variants other than baseline and candidate, which are appended in sorted order, are not modelled.
- Schedules.IdentityIsPermutation: the two scenarios of the completion gate are named as those of the context broker; its schedule is the same rule.
- Fingerprint.EncodeInjective: parts are shorter than 2^64 bytes, beyond which the eight-byte length does not exist.
- `_write_frame`: the same shrinking loop as `write_all`.
- Frozen-manifest checks, release and lint scripts, live and resume drivers: fixed-value comparisons and plumbing that would only add easy members.
