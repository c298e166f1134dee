# Verified models of four protocols of the backoffice

The project models four parts of the repository and proves their central properties with
Dafny 4.11. Nothing here runs the original programs.

**The supervisor runner** (`scripts/supervisor/runner.py`). One machine talks to a ledger on
the server through three durable files, `claim-intent.json`, `active.json` and `outbox.json`.
`SupervisorLedger` is the server's side, following `src/lib/supervisor/service.ts`, and
`SupervisorAnswers` says exactly which requests it accepts and what they change.
`RunnerProtocol` is a transition system over the files, the program point and the server, in
which a crash, a lost request, a lost answer, a cancellation, an expired lease and the actions
of other machines are steps. `RunnerSafety` proves its claims over every run, and `RunnerLate`
what is left of them when the server handles requests after the runner has given up waiting.
`RunnerStuck` has the state in which it does not get further by itself.
`RunnerHost` is the runner itself, as methods that rewrite the files; each method is proved to
take only steps of the protocol, so that the claims hold at every moment of `Serve`, with late
requests or without. `RunnerMoves` says what such a method may rely on between two of its steps.
`DocumentApply` is the application of approved documents, and `EventStream` the reader of the
event stream.

**The migration ledger** (`scripts/verify-migration-state.ts` and
`scripts/seed-legacy-migration-fixture.ts`). `MigrationLedger` has the reader, the ledger key
and the seeder; `MigrationVerify` the verifier, the inspector and the classifier;
`MigrationLineage`, `MigrationLoss` and `MigrationRecovery` prove that they agree with each
other and along deploys, losses and recoveries; `DataFingerprint` has the row counts before and
after a migration. `SortedKeys` has the sorting the comparisons rest on.

**Book sales collection** (`scripts/book-sales/collect.py`, `scripts/book-sales/kdp_report.py`).
`BookWindows` has the month windows, `CollectMonths` the collection run, `SheetDecode` the
worksheet decoder and `RoyaltyReport` the report parser with its reconciliation, in the rounding
arithmetic of `Decimals`. `WindowTexts` and `RoyaltyRows` tie the texts of windows and cells to
what is read from them. `RoyaltyRounding` says when the rounding does not matter and how much it
can, and `RoyaltyLimits` has reports for which it does.

**Two budgeted or at-most-once protocols.** `SignerProtocol` and `SignerService` are the signer's
trusted observations (`scripts/provider-execution-attestation-signer.ts` with the services it
calls), as a transition system and as the process that takes its steps. `SlackPoster` is the
resumable poster (`scripts/preview-slack-format.ts` with `src/lib/notifications/channel.ts`).

`dafny verify dfyconfig.toml` checks everything.

## Assumptions

- Durable files of the runner change atomically (`private_json` replaces them); the poster's
  `state.json` does not, so a rewrite of it may leave text that does not parse.
- Identifiers drawn with `uuid4` are new. SHA-256, signatures and request digests are injective.
- A request of the runner either does not reach the server, or reaches it and its answer is lost,
  or is answered; the server handles it as one transaction, as `service.ts` does. That it does so
  before the runner goes on is what `prompt` says in `RunnerHost`; `RunnerSafety` assumes it, and
  `RunnerLate` does not.
- `fix` stands for the arithmetic of the report parser: `Fix` rounds as Python's default decimal
  context does (28 digits, half to even), `Exactly` does not. The parser is `fix == Fix`.
- Slack's answer to a creating call tells the truth unless it is "outcome unknown".

## What the proofs found

- **Documents.** "A file changed from outside is never written" is false in the window between the
  last check of a file and its replacement: `EditInWindowIsLost` is the run.
  `OverwritesIffEditedInWindow` has the exact condition: a replacement destroys something other
  than the approved source if and only if the file's last edit inside that window left something
  else. "What is written is the verified result" is false as well, because the workspace copy is
  read again after its verification: `CopyEditIsInstalled` is the run. What is installed is the
  result exactly if no edit of the copy since its verification had left anything else
  (`EveryCrashPointIsOldOrNew`), and the readback tells the two apart (`ReadBackTellsForeignCopies`).
- **Royalties.** "In an accepted report the royalties add up to the Summary within half a cent" is
  false, because sums and differences are rounded to 28 digits: `TinyExcessIsAccepted` has a royalty
  of 0.005 + 10^-35 against a Summary of zero. `ExactReportIsRefused` has a report that adds up and
  is refused, since 10^12 - 10^-23 rounds to the limit of a number. With at most twelve fraction
  digits in every Royalty cell and every royalty column of the Summary nothing is rounded: the
  report is judged as in exact arithmetic (`GuardedReportsAreJudgedExactly`) and, accepted,
  conserves (`AcceptedReportConserves`). Twelve is the largest such number
  (`TwelvePlacesAreTheLimit`, with `ThirteenPlacesAreTooMany`). Reports with more digits may add up or
  not; an accepted one is off by at most half a cent and half a unit of the twelfth place for each
  row and two more (`EveryAcceptedReportNearlyConserves`).
- **Recovery policies.** "A deploy keeps the lineage" is false of an empty database whose manifest
  has a recovery policy that does not match its migration: it is classified as fresh without a look
  at the policies, and refused after the first deploy (`EmptyDatabaseHidesPolicies`). The lineage is
  kept exactly if all policies match (`DeployKeepsLineage`, `DeployRunKeepsLineage`), and once a
  database has attempts, being accepted implies it. Legacy mode does not look at the policies either
  (`BaselineResolveCutsOver`).
- **Legacy ledger.** "Legacy mode accepts a seeded ledger if and only if its occurrence column is
  the rank" is false when two attempts agree in everything but their occurrence:
  `ExchangedOccurrencesCompareEqual` is the ledger. `SeededLegacyMode` has the exact condition
  (the ranked ledger is the frozen one as a multiset), and `SeededLedgerIsSameIffRanked` shows that
  it is the rank line by line when no two attempts are alike.
- **Fingerprints.** "The fingerprints are equal if all undeclared tables kept their rows" is false when
  a table declared new was there before: `EmptiedTableIsNoticed` is the database. Equal fingerprints
  mean exactly that the undeclared tables are undisturbed and that, in addition, no table declared
  new was there before (`EqualFingerprintsMeanUndisturbed`).
- **Event stream.** A line of JSON that is not an object ends the reader with an `AttributeError`
  that no handler catches. Whether a line between 2 MiB and 2 MiB + 65536 bytes overflows depends
  on where the parts are cut; a shorter one never does, a longer one always.
- **Claim recovery.** When a `stopped` report did not reach the server, the next recovery delivers
  it from the outbox and then records a second one, which the server refuses for good
  (`SecondStopIsDoomed`). The recovery after that finds the run finished, drops the intent and
  returns, with the body still pending. It stays pending from then on: the machine records, delivers
  and archives no report any more and starts no run (`DoomedStopStaysPending`; `StuckIsReachable` is
  the run). No body is lost, but the runner does not get further by itself.
- **Late requests.** A claim that the server grants after its intent has been given up leaves a live
  run that neither file names; it does so exactly if it is granted (`LateClaimOrphansIffGranted`). That
  is all: no run is started twice or unannounced, every report stays accounted for, a late report
  changes nothing or delivers the pending body (`LateReportIsHarmless`), and the orphaned run is never
  started (`OrphanIsNeverStarted`). `OrphanIsReachable` is a run.

## Model

| member | source | states |
|---|---|---|
| RunnerSafety.EveryReachableWorldIsSafe | scripts/supervisor/runner.py:322-455 | Over every run with crashes, lost requests, lost answers, restarts and outside interventions: each run is started at most once and only after an accepted report, no live run is orphaned, and every report is accounted for in recording order |
| RunnerSafety.ActionKeepsInv | scripts/supervisor/runner.py:167-455 | Every step of the protocol, of the server and of the outside world keeps the invariant |
| RunnerSafety.EachReportIsInOnePlace | scripts/supervisor/runner.py:167-182 | A body ever written to the outbox is exactly one of acknowledged, archived, pending |
| RunnerSafety.ActiveGoesOnlyWhenSettled | scripts/supervisor/runner.py:381-385 | Whenever active.json stops naming a run, the server holds it as finished or paused and no report is pending |
| RunnerSafety.OnlyRemovalDropsActive | scripts/supervisor/runner.py:440-455 | No step but the removal itself makes active.json stop naming its run |
| RunnerSafety.UnphasedIsUnstarted | scripts/supervisor/runner.py:395-399 | A live run of this machine whose checkpoint has no phase has not been started |
| RunnerSafety.RepeatedClaimHolds | scripts/supervisor/runner.py:393-399 | A repeated claim that hands a run back hands back the live run of the saved intent, and that run has not been started |
| RunnerSafety.NewClaimKeepsInv | src/lib/supervisor/service.ts:384-524 | A newly granted claim keeps the invariant, whether or not its answer arrives |
| RunnerSafety.OldClaimKeepsInv | src/lib/supervisor/service.ts:384-524 | So does a repeated or refused claim, which changes at most the active run's local state |
| RunnerSafety.DeliverKeepsInv | src/lib/supervisor/service.ts:525-673 | So does the server's handling of the pending report, first time or repeated |
| RunnerSafety.OutsideIsQuiet | src/lib/supervisor/service.ts:222-383 | Nothing outside this machine adds a local run, claim or report, or changes a local checkpoint; a local run may only end, lose its lease or be asked to stop |
| RunnerSafety.OutsideKeepsServerOk | src/lib/supervisor/service.ts:222-383 | A processing run stays the active one, a pending run unowned, and claims and runs stay paired |
| RunnerSafety.ClaimKeepsServerOk | src/lib/supervisor/service.ts:384-524 | The same for any machine's claim |
| RunnerSafety.ReportKeepsServerOk | src/lib/supervisor/service.ts:525-673 | The same for any machine's report |
| RunnerSafety.SecondStopIsDoomed | src/lib/supervisor/service.ts:525-673 | After an accepted stopped report a second one about the run is refused and the run stays finished, whatever happens on the server afterwards |
| RunnerStuck.DoomedStopStaysPending | scripts/supervisor/runner.py:388-437 | Over legal runs: once a doomed stopped report about a finished run is pending and neither journal nor program point names that run, it stays pending, and nothing is recorded, delivered, archived or started any more |
| RunnerStuck.StuckIsReachable | scripts/supervisor/runner.py:388-413 | A legal run ends in that state: the claim's answer is lost, the lease ends, the first stopped report arrives one recovery late, and the second is recorded |
| RunnerLate.LateRequestsOnlyOrphan | scripts/supervisor/runner.py:146-165 | With requests handled at any later time: no run is started twice or unannounced, every report is accounted for, and a live run that neither file names was claimed by a given-up request and has not been started |
| RunnerLate.LateActionKeepsInv | scripts/supervisor/runner.py:146-182 | Late reports, late claims and an intent dropped too early keep the invariant but for runs claimed late |
| RunnerLate.LateReportIsHarmless | src/lib/supervisor/service.ts:525-673 | A report handled late changes nothing, or is the delivery of the body still pending |
| RunnerLate.LateClaimOrphansIffGranted | src/lib/supervisor/service.ts:384-524 | A claim handled late orphans a run if and only if it is new, the server is in active mode without an active run, and an admissible pending run is picked |
| RunnerLate.OrphanIsNeverStarted | scripts/supervisor/runner.py:388-411 | An orphaned run is never named by the journal and never started afterwards |
| RunnerLate.OrphanIsReachable | scripts/supervisor/runner.py:388-411 | A run in which a claim times out, the repeated one finds nothing, the intent goes, and the first claim is then granted a run |
| RunnerMoves.LateClaimMoves | src/lib/supervisor/service.ts:384-524 | A claim arriving late leaves every run of this machine owned, in its generation and settled if it was, and a doomed pending body doomed |
| RunnerMoves.LateReportMoves | src/lib/supervisor/service.ts:525-673 | So does a report arriving late |
| RunnerHost.Host.Arrive | scripts/supervisor/runner.py:146-165 | Between two operations the server may take a step of its own or, unless it is prompt, handle an earlier claim or report |
| RunnerHost.Host.DropIntent | scripts/supervisor/runner.py:408-411 | The intent goes and nothing else of the machine changes; only on a prompt server is its claim known to be settled |
| RunnerHost.Host.PauseRun | scripts/supervisor/runner.py:383-385 | A normal end leaves neither journal nor pending report, and the last accepted report is the paused record |
| RunnerHost.Host.Serve | scripts/supervisor/runner.py:533-553 | Cycle after cycle, with the process dying anywhere: at every moment the four claims hold if the server is prompt, and otherwise three of them and the fourth but for runs claimed late |
| RunnerHost.Host.Cycle | scripts/supervisor/runner.py:533-553 | One cycle takes only steps of the protocol, late arrivals included, however it ends; a normal end leaves no journal |
| RunnerHost.Host.SeekWork | scripts/supervisor/runner.py:538-551 | In active mode a new intent is saved, claimed and executed or dropped, in any other none is drawn; a normal end leaves no journal and no new intent |
| RunnerHost.Host.AskForWork | scripts/supervisor/runner.py:541-551 | A new request id is drawn, and a normal end leaves neither journal nor intent: the server was seen active and free, or a run was executed |
| RunnerHost.Host.ClaimWork | scripts/supervisor/runner.py:545-551 | A granted claim is executed to its success or its paused record; without one the intent goes, and only an active server that executes nothing lets the cycle end normally |
| RunnerHost.Host.Execute | scripts/supervisor/runner.py:322-385 | A normal end leaves neither journal, intent nor pending report, and the last accepted report about the run is the verified success or the paused record |
| RunnerHost.Host.Attempt | scripts/supervisor/runner.py:334-382 | A normal end has started the CLI once, had the verified success accepted and removed the journal; an exception leaves the journal naming the run |
| RunnerHost.Host.Announce | scripts/supervisor/runner.py:335-350 | When it returns, the server has accepted the preparing report about the run, and neither files nor starts have changed |
| RunnerHost.Host.Codex | scripts/supervisor/runner.py:216-290 | The CLI is started once, only for an announced run; the journal stays on the run and holds the session returned |
| RunnerHost.Host.Beat | scripts/supervisor/runner.py:241-271 | Noting a session keeps the journal on the same run and generation and puts that session into it; what was acknowledged last is the executing heartbeat |
| RunnerHost.Host.VerifyResult | scripts/supervisor/runner.py:358-362 | The monitored commands leave journal, intent and starts as they were; what was acknowledged last is the verifying heartbeat |
| RunnerHost.Host.RecoverClaim | scripts/supervisor/runner.py:388-413 | Without a journal, recovery hands back a run that has not been started, or leaves no journal, no intent and, unless the claimed run was seen to be over, no pending report; it starts nothing |
| RunnerHost.Host.SettleClaim | scripts/supervisor/runner.py:400-411 | The run in the answer is terminal, or it was seen active here and never reported on and its stopped report was accepted, before the intent may go; on a prompt server the claim is settled then |
| RunnerHost.Host.GiveUpClaim | scripts/supervisor/runner.py:400-411 | The intent goes only after a run seen terminal or an accepted stopped report |
| RunnerHost.Host.StopLostClaim | scripts/supervisor/runner.py:407 | A claim whose answer was lost is reported as stopped before execution, with evidence and readback |
| RunnerHost.Host.RecoverActive | scripts/supervisor/runner.py:414-455 | With a journal, a normal end leaves neither journal nor pending report, nothing unsettled, and has started nothing |
| RunnerHost.Host.SettleActive | scripts/supervisor/runner.py:438-455 | The journal goes without a report after a run was seen terminal or paused, and otherwise with an accepted pause of a run seen active; it sends nothing else |
| RunnerHost.Host.GetRun | scripts/supervisor/runner.py:401-438 | An answer is what the server held of the run at some moment since it was asked, and what it says of ownership and of an end is still so |
| RunnerHost.Host.ResendPending | scripts/supervisor/runner.py:424-437 | A normal end has the pending body acknowledged, or archived when it is of the journaled run and generation; otherwise it stays pending, and a final refusal is never passed on as such |
| RunnerHost.Host.SaveAndSend | scripts/supervisor/runner.py:167-175 | When report returns, the body pending before and then this one, with the contents and evidence given, were acknowledged in that order; a final one has settled the run |
| RunnerHost.Host.FlushOutbox | scripts/supervisor/runner.py:177-182 | When it returns the pending body is acknowledged; on an error it is still pending |
| RunnerHost.Host.Record | scripts/supervisor/runner.py:170-172 | The body holds what it is given, its evidence included, under a new request id, and overwrites no pending one |
| RunnerHost.Host.SendReport | scripts/supervisor/runner.py:173-174 | An answer is a true acceptance; a refusal by lease or ownership means the server will refuse the body for good |
| RunnerHost.Host.ServeReport | src/lib/supervisor/service.ts:525-673 | The answer and the new ledger are those of reportRun on the body: a report is applied once per request id, a repeat is answered alike |
| RunnerHost.Host.SendClaim | scripts/supervisor/runner.py:393 | What an answered claim tells is still true when it arrives, but for what a late claim of the same intent may add |
| RunnerHost.Host.StartCli | scripts/supervisor/runner.py:228 | Starting the CLI is one step, taken only for the journaled run after an accepted report |
| RunnerHost.Host.RemoveActive | scripts/supervisor/runner.py:382 | Removing the journal changes no other file and leaves no claim of this machine unsettled |
| RunnerHost.Host.Archive | scripts/supervisor/runner.py:437 | Archiving moves the doomed body to the rejected files and nowhere else |
| RunnerHost.ClaimAnswers | src/lib/supervisor/service.ts:384-524 | What each kind of claim answer says about the saved intent and the active run |
| RunnerHost.VerifiedSuccessIsAccepted | src/lib/supervisor/service.ts:525-673 | The success execute reports, with evidence and its session, is accepted and settles the run as long as the server sees the run executed here |
| RunnerHost.NeverStartedStopIsAccepted | src/lib/supervisor/service.ts:525-673 | The stopped report of recovery is accepted and settles the run as long as it is this machine's active one |
| RunnerHost.PauseIsAccepted | src/lib/supervisor/service.ts:525-673 | Either paused report is accepted whatever has become of the lease |
| SupervisorAnswers.SuccessIsAcceptedIff | src/lib/supervisor/service.ts:525-588 | Exactly when a new success report is accepted |
| SupervisorAnswers.StopIsAcceptedIff | src/lib/supervisor/service.ts:546-588 | Exactly when a new stopped report is accepted: without a lease too |
| SupervisorAnswers.PauseIsAcceptedIff | src/lib/supervisor/service.ts:546-588 | Exactly when a new paused report is accepted |
| SupervisorAnswers.ProgressIsAcceptedIff | src/lib/supervisor/service.ts:546-588 | Exactly when a new progress report or heartbeat is accepted |
| SupervisorAnswers.RefusalCodesMean | src/lib/supervisor/service.ts:546-588 | A refusal names lost ownership, a lost lease, a missing run or something else exactly when that is so |
| SupervisorAnswers.AcceptedReportDoes | src/lib/supervisor/service.ts:589-673 | An accepted report is kept, changes its run as its kind says, frees the coordinator if it ends the run, and touches nothing else |
| SupervisorAnswers.OtherReportsDoNothing | src/lib/supervisor/service.ts:525-545 | Refused and repeated reports change nothing, and a repeated one is accepted exactly if it is the same |
| SupervisorAnswers.ClaimIsGrantedIff | src/lib/supervisor/service.ts:438-524 | Exactly when a new claim is granted a run, and what the run and the ledger are then |
| SupervisorAnswers.UngrantedClaimMeans | src/lib/supervisor/service.ts:438-489 | What each other answer to a new claim says about the server |
| SupervisorAnswers.UngrantedClaimDoes | src/lib/supervisor/service.ts:438-489 | Such a claim at most marks a running active run without a lease as uncertain |
| SupervisorAnswers.RepeatedClaimMeans | src/lib/supervisor/service.ts:401-415 | A repeated claim gets its run back exactly while that is being executed here, and changes nothing |
| SupervisorAnswers.CancelDoes | src/lib/supervisor/service.ts:284-322 | Cancelling ends a waiting run at once and asks the machine of a running one to stop |
| SupervisorAnswers.ReconcileDoes | src/lib/supervisor/service.ts:251-283 | Reconciling ends a paused run and frees the coordinator |
| DocumentApply.EveryCrashPointIsOldOrNew | scripts/supervisor/runner.py:362-380 | At every crash point: nothing was installed before every copy and every file had been seen; each verified file nobody has edited since is its source or, for a prefix of the list, what was installed; and that is what the workspace held when it was read, the approved result exactly if no edit of the copy since its verification had left anything else |
| DocumentApply.OverwritesIffEditedInWindow | scripts/supervisor/runner.py:371-379 | A replacement destroys something other than the approved source if and only if the last edit between check and replacement left something else |
| DocumentApply.UneditedIsNeverOverwritten | scripts/supervisor/runner.py:371-379 | Without edits of the folder nothing but approved sources is written over |
| DocumentApply.ReadBackTellsForeignCopies | scripts/supervisor/runner.py:311-313 | Reading back a file nobody else edited finds the approved result if and only if the copy it was made from had been left with nothing else |
| DocumentApply.CopyEditIsInstalled | scripts/supervisor/runner.py:362-379 | A run in which an edit of the workspace copy after its verification is installed |
| DocumentApply.EditInWindowIsLost | scripts/supervisor/runner.py:371-379 | A run in which an edit between check and replacement is written over |
| DocumentApply.Folder.VerifyCopies | scripts/supervisor/runner.py:311-313 | Completes only when it has seen every copy with its approved result; without edits exactly if all hold it, unless the program ends; a wrong copy is refused and a missing one ends the program |
| DocumentApply.Folder.VerifySource | scripts/supervisor/runner.py:127-130 | One file is seen exactly if it holds its bound source then; a missing or different one is refused |
| DocumentApply.Folder.VerifyBinding | scripts/supervisor/runner.py:126-130 | Completes only when it has seen every file with its bound source; without edits exactly if all hold it, unless the program ends |
| DocumentApply.Folder.CheckNext | scripts/supervisor/runner.py:369-374 | A file passes exactly if it holds its approved source at that moment; a missing one ends the program |
| DocumentApply.Folder.CopyNext | scripts/supervisor/runner.py:375-377 | What will be installed is what the workspace copy holds at that moment, verified or not |
| DocumentApply.Folder.SwapNext | scripts/supervisor/runner.py:378-379 | One file is replaced by what was read from its copy and nothing else changes, or none if it is gone or the machine dies first |
| DocumentApply.Folder.ReadBack | scripts/supervisor/runner.py:311-313 | A completed readback has seen every file with its result after the last replacement; without edits it completes exactly if all hold it, unless the program ends |
| DocumentApply.Folder.ApplyAll | scripts/supervisor/runner.py:362-380 | However it ends, every moment was old-or-new with contents read from the copies, and every replacement overwrote foreign content exactly as edited; completed means every file was seen with its result, put there by the program unless edited; without edits it completes with all results applied exactly if both lists name the same files and sources and copies were right, unless the program ends; without failures either it ends by an escaped error exactly if the first copy that is not the approved result is missing, and otherwise refuses |
| EventStream.ReadEvents | scripts/supervisor/runner.py:233-283 | The reading of a stream in any parts is that of the whole stream; with no part does the buffer exceed 2 MiB + 65536; overflow occurs exactly when an unfinished line exceeds 2 MiB after some part, and then some line exceeds 2 MiB |
| EventStream.ReadPart | scripts/supervisor/runner.py:247-270 | One part is read as part of the whole stream: it is a fault, an overflow, or leaves the reading of what has arrived |
| EventStream.DrainLines | scripts/supervisor/runner.py:253-268 | The inner loop handles all complete lines and leaves what follows the last newline |
| EventStream.SplitOfConcat | scripts/supervisor/runner.py:252-254 | Cutting a stream in two does not change its lines or its rest |
| EventStream.SplitIsJoinInverse | scripts/supervisor/runner.py:253-254 | Lines and rest joined by newlines are the stream, and contain none |
| EventStream.JoinIsSplitInverse | scripts/supervisor/runner.py:253-254 | They are the only newline-free pieces that do |
| EventStream.OneSession | scripts/supervisor/runner.py:259-265 | Every session event of an accepted stream names the one accepted session |
| EventStream.AcceptedStreamIs | scripts/supervisor/runner.py:253-283 | Exactly which streams are accepted, the unterminated last line included, and that the session is the one a line names |
| EventStream.StreamFaultIsPresent | scripts/supervisor/runner.py:255-283 | Every fault that is reported is in the stream |
| EventStream.FaultPersists | scripts/supervisor/runner.py:261-264 | A fault after some parts is the fault of the whole stream |
| EventStream.LongLineOverflows | scripts/supervisor/runner.py:269-270 | A line longer than 2 MiB + 65536 overflows however the stream is cut |
| MigrationLedger.ReadHistory | scripts/verify-migration-state.ts:260-276 | The loop gives each row its rank among the rows of its name, and fails at the first unresolved row |
| MigrationLedger.KeyIsInjective | scripts/verify-migration-state.ts:233-235 | Ledger keys of tab-free rows are equal only for equal rows |
| MigrationLedger.SameLedgerIsSameRows | scripts/verify-migration-state.ts:291-293 | Equal sorted keys mean the same rows with the same multiplicity |
| SortedKeys.SortedEqualIffSameMultiset | scripts/verify-migration-state.ts:291-293 | Two sorted lists of keys are equal exactly when the keys are the same multiset |
| MigrationLedger.Seed | scripts/seed-legacy-migration-fixture.ts:274-289 | The insert loop writes one row for each ledger line, in order |
| MigrationLedger.SeedThenRead | scripts/seed-legacy-migration-fixture.ts:274-289 | Reading back what was seeded is the ledger with the rank as occurrence, in whatever order the rows are stored |
| MigrationLedger.OccurrencesAreExactlyOneToN | scripts/verify-migration-state.ts:260-263 | The occurrences of a name are 1 to n, each once, in line order |
| MigrationLedger.SeededLedgerIsSameIffRanked | scripts/verify-migration-state.ts:287-295 | A ranked ledger compares equal to itself; with distinct attempts only a ranked one does |
| MigrationLedger.ExchangedOccurrencesCompareEqual | scripts/verify-migration-state.ts:291-293 | Two like attempts with exchanged occurrences compare equal without being ranked |
| MigrationVerify.TallyRows | scripts/verify-migration-state.ts:174-189 | The first loop counts successes and rollbacks per name, or finds a row with wrong bytes or a rollback with steps |
| MigrationVerify.CheckAllowances | scripts/verify-migration-state.ts:190-197 | Every counted rollback is within its allowance and every policy fits its bytes |
| MigrationVerify.VerifyActiveRows | scripts/verify-migration-state.ts:170-199 | Accepts exactly the ledgers whose rows and rollbacks are in order, and returns the successes per name |
| MigrationLineage.PrefixIffNoGap | scripts/verify-migration-state.ts:411-416 | The filter equals the slice exactly when no applied migration follows a missing one |
| MigrationLineage.DeployKeepsLineage | scripts/verify-migration-state.ts:367-435 | Appending the success of the next missing migration advances by one and keeps the lineage exactly if the recovery policies match, which every accepted database with attempts implies |
| MigrationLineage.DeployRunKeepsLineage | scripts/verify-migration-state.ts:367-435 | Along every run of deploys the lineage stays, and a complete ledger passes verifyHistory in its mode, both exactly if the recovery policies match |
| MigrationLineage.EmptyDatabaseHidesPolicies | scripts/verify-migration-state.ts:376-382 | An empty database is accepted as fresh with a broken recovery policy and refused after any first deploy |
| MigrationLineage.FullyAppliedVerifies | scripts/verify-migration-state.ts:279-322 | A ledger accepted as a lineage with nothing missing passes verifyHistory in that mode |
| MigrationLineage.AllowanceMeans | scripts/verify-migration-state.ts:153-168 | The rollbacks allowed: none without a policy, its number with a policy that holds, an error with a broken one |
| MigrationLineage.FreshHistoryIs | scripts/verify-migration-state.ts:279-322 | Fresh mode accepts exactly the ledgers without legacy or unknown rows in which every active migration succeeded exactly once, in order and within its allowance |
| MigrationLineage.CutoverHistoryIs | scripts/verify-migration-state.ts:279-322 | Cutover mode accepts exactly those whose legacy rows are the frozen ones with their multiplicity, and the same of the active ones |
| MigrationLineage.LegacyHistoryIs | scripts/verify-migration-state.ts:279-322 | Legacy mode accepts exactly the frozen rows and no active one |
| MigrationLineage.VerifiedIffComplete | scripts/verify-migration-state.ts:279-322 | A ledger the classifier accepts passes verifyHistory in the mode of its lineage exactly if nothing is missing |
| MigrationLineage.HistoryRefusalIsTrue | scripts/verify-migration-state.ts:279-322 | The reason verifyHistory gives is true of the ledger |
| MigrationLineage.ClassifierRefusalIsTrue | scripts/verify-migration-state.ts:382-406 | The classifier's reasons about the rows it finds are true of them |
| MigrationLineage.SuccessRefusalIsTrue | scripts/verify-migration-state.ts:406-416 | A doubled success and a gap are reported only where there is one |
| MigrationLineage.OpenLineageIsTrue | scripts/verify-migration-state.ts:418-434 | Cut over means that there are legacy rows; a missing baseline, an unresolved baseline and an unknown lineage are reported only where they are so |
| MigrationLineage.GateMeans | scripts/verify-migration-state.ts:621-627 | The gate passes exactly the expected lineage, or any accepted one if none is expected |
| MigrationLineage.RowlessAnswers | scripts/verify-migration-state.ts:367-382 | What the classifier answers without a history table, without rows, and with an unresolved attempt |
| MigrationLoss.LegacyLossIsRefused | scripts/verify-migration-state.ts:394-402 | From an accepted cutover ledger, losing some but not all legacy rows is a mismatch, losing all answers fresh, and the lineage gate refuses both |
| MigrationLoss.LostLedger | scripts/verify-migration-state.ts:237-277 | After a loss the ledger reads again, its active rows are unchanged but for their order, and there are fewer legacy rows |
| MigrationLoss.SameContentsSameJudgement | scripts/verify-migration-state.ts:404-416 | The judgement on active rows does not depend on their occurrences |
| MigrationRecovery.LedgerAcceptedIffTableAccepted | scripts/verify-migration-state.ts:170-199 | verifyActiveRows on the read ledger is a statement about the table rows themselves |
| MigrationRecovery.AcceptedSuccessIsSucceeded | scripts/verify-migration-state.ts:324-365 | An accepted ledger with one success of the migration is inspected as SUCCEEDED |
| MigrationRecovery.SucceededMeansAccepted | scripts/verify-migration-state.ts:324-365 | SUCCEEDED means one success, every attempt resolved with the right bytes, rollbacks within the allowance |
| MigrationRecovery.SucceededIff | scripts/verify-migration-state.ts:324-365 | Exactly when the inspector answers SUCCEEDED |
| MigrationRecovery.UnresolvedExactIff | scripts/verify-migration-state.ts:324-365 | Exactly when it answers UNRESOLVED_EXACT |
| MigrationRecovery.UnresolvedExactStopsHistory | scripts/verify-migration-state.ts:266-268 | A ledger inspected as UNRESOLVED_EXACT is one readHistory refuses |
| MigrationRecovery.RecoveryLeadsBothToAccept | scripts/verify-migration-state.ts:324-365 | Marking that attempt rolled back and appending a success makes the ledger readable, accepted with one success, and SUCCEEDED |
| MigrationRecovery.SeededLegacyMode | scripts/verify-migration-state.ts:279-322 | When legacy mode accepts a seeded database, exactly |
| MigrationRecovery.BaselineResolveCutsOver | scripts/verify-migration-state.ts:418-434 | A database accepted in legacy mode is asked for the baseline, and with it resolved is accepted as cut over, both exactly if the recovery policies match; otherwise both are refused |
| DataFingerprint.VisitTable | scripts/verify-migration-state.ts:574-596 | One table is counted, or noted as removed or as new and empty, or refused |
| DataFingerprint.CountTables | scripts/verify-migration-state.ts:571-596 | The counts are those of the tables in neither declaration, in order |
| DataFingerprint.SafeNameIs | scripts/verify-migration-state.ts:575-577 | A safe name is not empty and has letters, digits and underscores only |
| DataFingerprint.ComputeFingerprint | scripts/verify-migration-state.ts:556-612 | Succeeds exactly when names are safe and the declarations match the database |
| DataFingerprint.CountsDetermineTables | scripts/verify-migration-state.ts:125-137 | Ordered counts are equal exactly for equal tables |
| DataFingerprint.EqualFingerprintsMeanUndisturbed | scripts/verify-migration-state.ts:556-612 | Equal fingerprints mean exactly that undeclared tables kept their counts and no table declared new was there before |
| DataFingerprint.EmptiedTableIsNoticed | scripts/verify-migration-state.ts:571-596 | A table declared new that was there before and has been emptied makes the fingerprints differ, with every undeclared table undisturbed |
| BookWindows.TwoMonthsBack | scripts/book-sales/collect.py:31-33 | The default start is the first of the month two months before |
| BookWindows.ListWindows | scripts/book-sales/collect.py:35-39 | The loop ends and lists a window for each month up to today, or runs past the year 9999 |
| BookWindows.MonthWindows | scripts/book-sales/collect.py:30-41 | month_windows answers the expected windows or fails as the code does |
| BookWindows.WindowsPassGuard | scripts/book-sales/kdp_report.py:104-108 | At most 120 windows, the last ending today, each passing the guard of parse_report |
| BookWindows.WindowsAreContiguous | scripts/book-sales/collect.py:35-39 | The day after a window is the first of the next |
| BookWindows.WindowsPartitionTheDays | scripts/book-sales/collect.py:35-39 | A day is in exactly one window if it is between the start and today, else in none |
| BookWindows.DefaultIsThreeMonths | scripts/book-sales/collect.py:31-33 | Without a start there are exactly three windows |
| BookWindows.AnswersWindowsIff | scripts/book-sales/collect.py:30-41 | Windows are answered for a start month exactly if it is 2020 or later, not after today, at most 119 months ago, and the calendar goes on |
| BookWindows.NextDayIsNext | scripts/book-sales/collect.py:35-39 | The calendar has the years and months of Python's date.toordinal: the next day has the next number |
| BookWindows.OrdinalsAreOrdered | scripts/book-sales/collect.py:34-37 | Comparing dates is comparing their numbers |
| BookWindows.CalendarIsAnchored | scripts/book-sales/collect.py:37 | Where the numbers stand, and that February 2024 has 29 days |
| WindowTexts.EveryWindowIsRead | scripts/book-sales/kdp_report.py:104-108 | parse_report reads the texts of every window as the month and the last day they were written for |
| WindowTexts.WindowIsRead | scripts/book-sales/kdp_report.py:104-108 | It does so for every window that passes the guard, and refuses every other |
| WindowTexts.DateTextIsRead | scripts/book-sales/kdp_report.py:38-40 | A day is read as the date it is written for |
| WindowTexts.ReadDateIsText | scripts/book-sales/kdp_report.py:38-40 | A text that is read as a date is how that date is written |
| WindowTexts.NumberIsRead | scripts/book-sales/kdp_report.py:112 | The year in the Summary's date is the digits of its number |
| CollectMonths.Collector.CollectWindows | scripts/book-sales/collect.py:101-140 | With a lease, a normal return has one verdict per window in order, the downloads stop at the first terminal failure, the snapshots sent are those of the parsed windows, and ok says that all are good; without one each window gets one failure post; an own lease is released once on every path; when sending works, it raises exactly if a window that is reached breaks or the release fails |
| CollectMonths.Collector.CollectEach | scripts/book-sales/collect.py:112-137 | The loop gives the verdicts, the downloads and one post for each failure |
| CollectMonths.Collector.CollectOne | scripts/book-sales/collect.py:112-137 | One turn downloads one window and settles it, or all remaining ones |
| CollectMonths.Collector.SendSnapshot | scripts/book-sales/collect.py:123-128 | A snapshot is sent by a post and a readback that both succeed, and by nothing else |
| CollectMonths.Collector.FailPending | scripts/book-sales/collect.py:133-136 | Each pending window gets one post and one verdict |
| CollectMonths.Collector.ReportUnavailable | scripts/book-sales/collect.py:107-110 | Each window gets one failure post, in order |
| CollectMonths.Collector.Collect | scripts/book-sales/collect.py:150-168 | The batch is opened as running and closed as succeeded exactly if everything expected was verified, also when the run raises; a dry run sends nothing |
| CollectMonths.OneVerdictPerWindow | scripts/book-sales/collect.py:112-137 | The verdicts are one per window in window order |
| CollectMonths.PostsAreTheFailures | scripts/book-sales/collect.py:133-136 | The posts are exactly those of the failed windows, once each, in order |
| CollectMonths.TerminalFailureCoversTheRest | scripts/book-sales/collect.py:133-137 | From the first terminal failure on every window carries its code; before it none does |
| CollectMonths.OtherFailuresDoNotStop | scripts/book-sales/collect.py:129-137 | A window is downloaded exactly if no earlier one failed to authenticate or to be archived, and is then judged by its own attempt |
| CollectMonths.GoodAreTheParsed | scripts/book-sales/collect.py:129-138 | The good verdicts are those of the windows that were downloaded and parsed |
| CollectMonths.AllGoodIffCounted | scripts/book-sales/collect.py:138 | As many good verdicts as windows means that all are good |
| SheetDecode.ReadColumn | scripts/book-sales/kdp_report.py:76-79 | The letter loop computes the column of the letters |
| SheetDecode.ColumnIsBijective | scripts/book-sales/kdp_report.py:76-79 | Non-empty letters and columns are in bijection |
| SheetDecode.DecodeRow | scripts/book-sales/kdp_report.py:73-87 | Each column holds the last cell put there or nothing; a column past the limit is refused |
| SheetDecode.CellIsAtItsColumn | scripts/book-sales/kdp_report.py:75-87 | A cell that no later one replaces is found at its own column |
| SheetDecode.NothingBeyondWidth | scripts/book-sales/kdp_report.py:82 | No cell lies beyond the padded row |
| SheetDecode.DecodeSheet | scripts/book-sales/kdp_report.py:71-90 | Decodes every row and keeps those with text, or meets the column limit or the row limit |
| SheetDecode.KeptAreTheRowsWithText | scripts/book-sales/kdp_report.py:88-89 | The kept rows are those with a cell that has text and that no later cell replaces, each once and in order |
| SheetDecode.RecordIsCellUnderHeader | scripts/book-sales/kdp_report.py:96-101 | A record holds the cell under each header and nothing else |
| SheetDecode.RecordsAreGivenIff | scripts/book-sales/kdp_report.py:96-101 | Records are given exactly for a header of distinct names, the required ones among them, and no longer row |
| SheetDecode.RecordRefinesSparseCells | scripts/book-sales/kdp_report.py:71-101 | From the sparse cells of a whole sheet: the header is the first row with text, the records are the later rows with text in order, and the field under a header is the text of the last cell put in its column, or empty |
| RoyaltyReport.ReadRoyaltySheet | scripts/book-sales/kdp_report.py:127-134 | The loop over a sheet's lines fails at a bad line or appends its rows and keeps both running totals as the program adds them up, rounding included |
| RoyaltyReport.ReadSheet | scripts/book-sales/kdp_report.py:123-134 | The same for one sheet with the columns it requires |
| RoyaltyReport.ReadRoyalties | scripts/book-sales/kdp_report.py:123-134 | The same for the three sheets in order |
| RoyaltyReport.CheckCurrencies | scripts/book-sales/kdp_report.py:136-138 | Every emitted currency has a column whose rounded difference from the running total is within the tolerance |
| RoyaltyReport.CheckColumns | scripts/book-sales/kdp_report.py:139-141 | Every royalty column is within the tolerance of the running total, as the program compares them |
| RoyaltyReport.CheckSummary | scripts/book-sales/kdp_report.py:136-143 | All checks on the Summary line, as the program computes them |
| RoyaltyReport.BalancedIffReconciled | scripts/book-sales/kdp_report.py:136-143 | The checks on the running totals are a statement about the emitted rows, added up with the same rounding |
| RoyaltyReport.AddActivity | scripts/book-sales/kdp_report.py:145-153 | Orders and pages are appended, within 8000 rows |
| RoyaltyReport.ParseReport | scripts/book-sales/kdp_report.py:104-153 | With either way strftime writes years below 1000: accepts exactly the reports acceptable in the program's arithmetic and emits one row for every line |
| RoyaltyRows.RowsAreTheLines | scripts/book-sales/kdp_report.py:118-151 | A report has rows exactly if its sheets have their columns and every line can be read; row after row then says what the cells of its line say: date, title, identifier, marketplace, format, units, amount, currency, type, orders and pages |
| RoyaltyRows.RoyaltiesAreRead | scripts/book-sales/kdp_report.py:127-134 | Exactly when a royalty line is read, and what each field of its row is |
| RoyaltyRows.OrdersAreRead | scripts/book-sales/kdp_report.py:145-146 | The same for an orders line, with paid and free units |
| RoyaltyRows.PagesAreRead | scripts/book-sales/kdp_report.py:147-151 | The same for a line of pages read and listened |
| RoyaltyRows.CurrencyIs | scripts/book-sales/kdp_report.py:130 | A currency is three capital letters |
| RoyaltyRows.DigitsAre | scripts/book-sales/kdp_report.py:25 | Digits are those a number is written with |
| RoyaltyRows.RoyaltyLinesHaveColumns | scripts/book-sales/kdp_report.py:123-127 | Every royalty line has its columns, and a book is identified by its ASIN if the sheet has one, else by its ISBN |
| RoyaltyRows.GuardedPeriodIs | scripts/book-sales/kdp_report.py:104-108 | The period is one month from its first day to one of its days, read from the texts given |
| RoyaltyRows.SummaryIsOfTheMonth | scripts/book-sales/kdp_report.py:111-112 | The Summary is the only line of its sheet and is dated with the English name of the month and the digits of the year |
| RoyaltyReport.AcceptedReportIsReconciled | scripts/book-sales/kdp_report.py:104-153 | In an accepted report the rounded totals of every currency agree with the Summary, every row obeys its limits, net units are sold minus refunds in every format, and no exact total reaches 8000 times the limit of a number |
| RoyaltyRounding.GuardedReportsAreJudgedExactly | scripts/book-sales/kdp_report.py:132-141 | With at most twelve fraction digits in the royalty cells, the parser accepts a report if and only if exact arithmetic would, with the same rows |
| RoyaltyRounding.AcceptedReportConserves | scripts/book-sales/kdp_report.py:104-153 | An accepted report with at most twelve fraction digits conserves in exact arithmetic: royalties match the Summary in every currency, and net units match it too |
| RoyaltyRounding.EveryAcceptedReportNearlyConserves | scripts/book-sales/kdp_report.py:132-141 | Any accepted report is within half a cent and half a unit of the twelfth place per row and two more of its Summary, and every emitted currency has a column |
| RoyaltyLimits.TwelvePlacesAreTheLimit | scripts/book-sales/kdp_report.py:132-141 | All accepted reports with at most d fraction digits conserve if and only if d is at most twelve |
| RoyaltyLimits.ThirteenPlacesAreTooMany | scripts/book-sales/kdp_report.py:132-141 | A report with thirteen fraction digits that is accepted without conserving |
| RoyaltyLimits.TinyExcessIsAccepted | scripts/book-sales/kdp_report.py:132-141 | A royalty of 0.005 + 10^-35 against a Summary of zero is accepted without conserving |
| RoyaltyLimits.ExactReportIsRefused | scripts/book-sales/kdp_report.py:24-29 | A report that adds up exactly and is refused, because an absolute value rounds to the limit |
| Decimals.FixKeepsGrid | scripts/book-sales/kdp_report.py:132-141 | A number with d decimal places that fits 28 digits is not rounded |
| Decimals.FixIsClose | scripts/book-sales/kdp_report.py:132-141 | Rounding moves a number by at most half a unit of any decimal place that fits |
| Decimals.FixRoundsAtPlace | scripts/book-sales/kdp_report.py:132-141 | A number is rounded at the place of its 28th significant digit |
| Decimals.FixRoundsLarge | scripts/book-sales/kdp_report.py:132-141 | A number with more digits before the point keeps its magnitude |
| Decimals.FixRoundsTiny | scripts/book-sales/kdp_report.py:132-141 | A number too small for that is rounded at the 1000026th place |
| Decimals.HalfEvenIsNearest | scripts/book-sales/kdp_report.py:132-141 | Rounding takes the nearest integer, and of two the even one |
| RoyaltyReport.OnlyRoyaltiesCount | scripts/book-sales/kdp_report.py:145-151 | Orders and pages change no total |
| RoyaltyReport.ColumnNamesItsCurrency | scripts/book-sales/kdp_report.py:137-141 | A currency and its column name determine each other |
| RoyaltyReport.NetIsSoldMinusRefunds | scripts/book-sales/kdp_report.py:128-129 | Net units are sold units minus refunds in every total |
| RoyaltyReport.TotalIsBounded | scripts/book-sales/kdp_report.py:24-29 | A total stays below the number limit times the number of rows |
| SignerProtocol.EveryRunKeepsObservations | scripts/provider-execution-attestation-signer.ts:272-297 | Over any interleaving and restarts: each attestation is issued once, observation ordinals are 1..k in order with k at most 20, the broker is called once under each, and a settlement is OBSERVED exactly if it carries an observation the broker gave for that generation and for the grant of the envelope its attestation was issued for |
| SignerProtocol.ReaderTakesTheNextOrdinal | scripts/provider-execution-attestation-signer.ts:279-296 | A turn of the loop issues the next ordinal, or issues nothing; it gives up only when all twenty are spent |
| SignerProtocol.ProxySpendsNoOrdinal | scripts/provider-execution-attestation-signer.ts:85-93 | No worker request changes the observation ordinals of any generation |
| SignerProtocol.ActionKeepsInv | scripts/provider-execution-attestation-signer.ts:229-297 | Every step of any request, the worker, the ledger or a restart keeps the invariant |
| SignerProtocol.TrustedIsBacked | src/lib/control-plane/provider-adapter-client.ts:332-383 | What a request trusts is bound to the envelope in the ledger row when its attestation was issued |
| SignerProtocol.TrustedIffBound | src/lib/control-plane/provider-adapter-client.ts:332-383 | A trusted observation is exactly a 200 bound to this envelope's grant, and pending exactly a 204 |
| SignerProtocol.AuthorizationMeans | src/lib/control-plane/provider-execution-service.ts:812-887 | An attestation is granted exactly once to the holder of a live lease and approval for the very request; each refusal says which of this fails |
| SignerProtocol.SanitizedMeans | src/lib/control-plane/provider-adapter-client.ts:282-313 | Exactly which broker answers keep their body and their status |
| SignerProtocol.ParsedBodyIs | src/lib/control-plane/provider-settlement-request.ts:11-29 | Exactly which bodies parse |
| SignerProtocol.SettlementMeans | scripts/provider-execution-attestation-signer.ts:413-440 | Only OBSERVED without an observation is changed, to RESULT_UNKNOWN |
| SignerProtocol.ReadyRequestReadsNothing | scripts/provider-execution-attestation-signer.ts:276-297 | A request that waits for nothing issues nothing and asks nobody |
| SignerProtocol.SuppliedObservationNeverParses | src/lib/control-plane/provider-settlement-request.ts:11-38 | The strict schema alone would refuse every body with an observation key |
| SignerService.Signer.ReadObservation | scripts/provider-execution-attestation-signer.ts:276-297 | Returns the broker's own observation; nothing only after a 204 or with all twenty ordinals spent |
| SignerService.Signer.AskBroker | src/lib/control-plane/provider-adapter-client.ts:360-383 | One call under the attestation just issued; no other answer becomes an observation |
| SignerService.Signer.Settle | scripts/provider-execution-attestation-signer.ts:384-443 | A supplied observation or a bad body writes nothing; OBSERVED is recorded only with a broker-backed observation, and RESULT_UNKNOWN in its place only if the claim was not READBACK, the broker answered 204 or all twenty ordinals are spent; a claim that is not READBACK is never read; OBSERVED and HUMAN_REQUIRED need a current claim, and only they can be refused before that; other outcomes pass unchanged |
| SignerService.Signer.Open | scripts/provider-execution-attestation-signer.ts:276-278 | A request starts reading exactly if it is OBSERVED on a current READBACK claim |
| SignerService.Signer.Observe | scripts/provider-execution-attestation-signer.ts:276-297 | What a settlement is given: nothing without READBACK, a 204 or a spent budget, else the broker's observation |
| SignerService.Signer.HandOver | scripts/provider-execution-attestation-signer.ts:413-440 | What is recorded is the request with what was observed |
| SignerService.Signer.ProxyRequest | scripts/provider-execution-attestation-signer.ts:369-383 | Issues at most the attestation asked for, never an observation, and spends no ordinal |
| SlackPoster.Poster.Rerun | scripts/preview-slack-format.ts:13-39 | Over any number of runs, with files that may change in between, and crashes: no message is created twice, and once a run completes each has been created exactly once |
| SlackPoster.Poster.Run | scripts/preview-slack-format.ts:13-39 | A state file that does not parse stops it with nothing sent; an open attempt stops it with nothing sent for that example; completion means that all messages exist and are recorded as delivered, and a later run then sends nothing and asks nothing |
| SlackPoster.Poster.BeforeCreate | scripts/preview-slack-format.ts:34 | Admits a create only if none is open, and then STARTED is on disk and nothing has been created |
| SlackPoster.Poster.Created | scripts/preview-slack-format.ts:35 | A success records the message, an unclear outcome keeps STARTED, only a definite failure takes it back |
| SlackPoster.Poster.Send | src/lib/notifications/channel.ts:142-148 | Creates the announced message at most once and leaves the records true, whatever the answer |
| SlackPoster.Poster.Save | scripts/preview-slack-format.ts:16 | A rewrite is complete, cut short or not begun, and the disk never contradicts Slack |
| SlackPoster.Poster.SendRoot | src/lib/notifications/channel.ts:142-147 | An example with an open attempt is not sent again; a refusal takes the attempt back and an unclear answer leaves it open |
| SlackPoster.Poster.Upload | src/lib/notifications/channel.ts:55-96 | A file is shared at most once, and a shared one is only looked up; delivered means that this file was uploaded, shared and found; one whose upload was cut off stays undelivered |
| SlackPoster.Poster.StoreFile | src/lib/notifications/channel.ts:61-76 | The receipt is new and on disk before the bytes are sent, and marked uploaded only when they are |
| SlackPoster.Poster.FindMessage | src/lib/notifications/channel.ts:84-95 | The message of a shared file is the one in the receipt, or the one files.info names and the receipt then keeps |
| SlackPoster.Poster.ShareFile | src/lib/notifications/channel.ts:77-83 | With an open attempt nothing is shared; a success is recorded in the receipt; a refusal takes the attempt back and an unclear answer leaves it open |
| SlackPoster.Poster.PostPages | src/lib/notifications/channel.ts:105-133 | A delivered message has every following page posted and confirmed, and those posted before updated; an open page stops it with nothing sent |
| SlackPoster.Poster.PostPage | src/lib/notifications/channel.ts:117-124 | One page is announced on disk, sent once, and confirmed, left open, or struck out again when refused |
| SlackPoster.Poster.VisitPage | src/lib/notifications/channel.ts:108-124 | A page that was posted is only updated, an open one stops the delivery, and any other is posted |
| SlackPoster.Poster.RecordPage | src/lib/notifications/channel.ts:118-124 | A refusal strikes the page out, an unclear answer leaves it open, and a success is confirmed with its message |
| SlackPoster.Poster.Edit | src/lib/notifications/channel.ts:150-165 | Delivered means that the root was updated and every page is there |
| SlackPoster.Poster.Create | src/lib/notifications/channel.ts:135-149 | A blocked example creates nothing and is not delivered; a delivered one has its root and pages |
| SlackPoster.Poster.DeliverExample | scripts/preview-slack-format.ts:29-38 | An example is delivered exactly if it is recorded as done, after no call for it failed; a done one is left alone; no other example's record or message changes |
| SlackPoster.CreatingKeepsItem | scripts/preview-slack-format.ts:34-35 | Creating an announced message leaves its record true before any answer is known |
| SlackPoster.AnnouncedPageSettles | src/lib/notifications/channel.ts:117-124 | An announced page can be struck out if it was not created and confirmed if it was |

## Left out

- RunnerHost.Host.Serve: safety only; that the runner gets further against a server that keeps refusing is not stated, and it need not.
- The runner's deadlines, process groups and process identities, the git checks of `verify_binding`, the worktree and the analysis part of `cycle`: any of them may fail at any point (`Hazard`). A crash between starting the CLI and writing its process id is a crash like any other.
- The server's proposals, notifications and target policies; comparisons of lease times are the flag `leaseLive`.
- DocumentApply.Folder.ApplyAll: file modes and the temporary file that a crash may leave behind are not modelled; a file is its digest, a path outside the folder does not occur, and the verification is one of kind files.
- JSON, XML, ZIP, regular expressions and HTTP: the models start from parsed lines, cells and rows. Shared strings and inline strings of a worksheet are cell texts.
- RoyaltyReport.ParseReport: only ASCII digits count as digits, and a day is written YYYY-MM-DD.
- `localeCompare` and the database's `ORDER BY` on names are code-unit order; `started_at` ties are in any order.
- The legacy ledger file's header check and the schema contract queries.
- The archive of downloaded reports and the readback comparison of a posted snapshot are one success or failure each; the run ids of failure posts are not modelled.
- The signer's mTLS identities, claims route, journal checkpoint routes and lease tokens; recording a reauthentication request; what `settleProviderExecution` does with a settlement.
- Buffers that are zeroed after use.
- SlackPoster.Poster.PostPages: an example renders to the same number of messages in every run, so the deletion of surplus pages is never reached and is not modelled; editing a message that has an attachment is not reached either, which `RootOk` shows.
- Two posters running at once over one state file.
