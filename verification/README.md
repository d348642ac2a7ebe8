# ElasticThought: job protocol and dataset pipeline

ElasticThought trains and runs image classifiers. Its state lives in documents of a revisioned
database; any number of server and worker processes claim a document, do foreign work (downloads,
Caffe runs, uploads) and write the outcome back. This project models the two parts of it that are
hard to get right and proves what they keep.

**The job protocol.** Every write goes through one compare-and-swap loop, `casUpdate`. `Protocol`
is a state machine of one stored document, kept as the history of its versions, with any number of
workers whose Edits, Retrieves and foreign stages interleave freely. `NoLostUpdates`, `Winners`,
`LocalAssignments`, `Snapshots`, `NonOverlap` and `Downloads` hold the invariants over all runs; `Overwrites` and
`Spoiling` say over all runs, with any store errors, exactly when exclusion and the chain of updates
fail, and `ProtocolWitnesses` has runs in which they do.
`RetryLoop` is the loop itself as a method against an environment that keeps editing and failing.
`Updates` builds the jobs' updates on it, and `TrainingRuns`, `ClassifyRuns`, `DatasetRuns` and
`DatafileRuns` have the Run methods. `Scripts` and `Traces` tie both halves together: the workers of
the state machine and the Run methods make the same calls, and `RunWitnesses` runs each method once.
`ChangesFeed` and `SerialScheduler` cover how documents become jobs inside one process.

**The dataset pipeline.** `Allocation` and `Sharing` are the arithmetic of the ratio splitter,
`Splitter` its closure and copying loop, `PipeStage` and `ArchiveStage` the three goroutines around
it. `Text`, `Labels`, `IndexLines` and `Classification` go from names to numeric labels, to printed
index rows, to class names and back; `TrainTest` and `Pipeline` say what the split does to the two
label lists, and `PipelineWitnesses` has inputs for which labels go wrong.

## Assumptions

- The revision that Edit returns is discarded by the caller (models.go:51), so a copy that was just
  stored is left one revision behind. A revision is an index into the history. The document is never
  deleted.
- One `Body` carries the fields of all processable document types that an operation here reads or
  writes; `Configuration` and other fields that no updater writes are not part of it.
- The store answers a request with success, with 409 Conflict (section 15.5.10 of RFC 9110), or with
  another error, after which an Edit may have taken effect or not. Theorems that need the first two say
  so with `faults == 0`, `Faultless` or `Clean`. A worker that crashes is one that takes no more steps,
  so crashes are inside every theorem. All store errors have one message.
- A retrieve that CreateJob makes and the snapshot it returns are one step.
- Archives are sequences of (name, is-directory, body), ending in end of file or an error, possibly
  inside one more body; foreign stages are given by the error they end with. The split starts from the two integer ratios a
  (training) and b (test).
- A gzip writer holds items back and hands any front part of them on at any time; a pipe write blocks
  until it has been read.

## What does not hold

Each of these comes with the exact condition, and with a run or an input for which it fails.

- At most one holder of a document, over all jobs and all store behaviours: it holds throughout a run
  exactly if no event stores a terminal state while another worker holds, or the writer itself if its
  answer is lost (`ExclusionIffNeverOverwriting`). Training, classify and datafile workers never do that
  on a store without errors (`AtMostOneHolder`). The splitter's second finish does it in
  `SplitterOverwritesLaterClaim`, the download job in `DownloadOverwritesLaterClaim`, and a worker whose
  claim ended in a store error in `StoreErrorOnClaimBreaksExclusion`; a single step of theirs does it
  exactly if it is the Edit of a copy that is the newest, and somebody holds
  (`SecondFinishBreaksExclusionIff`, `ErroredClaimBreaksExclusionIff`).
- Execution at most once: `FinishedJobRunsAgain`. A claim tests for Processing, not for Pending; when it
  returns it has won exactly if neither the worker's copy nor the document is in Processing
  (`ClaimWinsIff`).
- Every version is one update: `StoreErrorSmugglesResults`. Over every run, each version is one updater on
  its predecessor exactly if no Edit takes effect that stores what an errored call left in its copy, in
  another field than the one it writes or although its own write changes nothing
  (`ChainIffNeverSpoiling`). The first such Edit of a run is always the recording of a store error
  (`SpoilersRecordAFailure`). Copies stay coherent, too, exactly as long as no store error hits the newest
  Edit of a pointer receiver without storing it (`InvThroughoutIffClean`).
- A failed download leaves the dataset Failed: `FailedDownloadIsFinished`. Whoever else works on the
  dataset, the last state that a download leaves is Failed exactly if it could not open the blob store
  (`Downloads.DownloadEndsFailedIff`).
- Fields that a job assigns to its own copy are stored: in no run are they (`AssignedFieldsAreNeverStored`).
- The pipe stage ends: it hangs when a Put returns early and leaves data in its pipe
  (`StuckIffAbandoned`, `AbandonedHangs`), as in `QuittingPutHangsTheStage`.
- The changes feed is followed for ever: an undecodable first answer, or any answer without a sequence
  number, ends the listener (`FollowChangesFeed`), as in `UndecodableFirstAnswer`.
- The label lists of the two parts agree: they differ as soon as a directory has one file, which is the
  open TODO at solver.go:565 (`SplitLabelListsAgreeIff`, `SingleFileHasNoTestLabel`). The test numbers
  still mean the right directories exactly when all single-file directories come last
  (`TestNumbersReadWithTrainingLabelsIff`, `TestNumberNamesTheWrongDirectory`).
- Labels are right: exactly if no directory recurs (`LabellingIsRightIffGrouped`,
  `RecurringDirectoryHasNoLabel`). A name with a space does not survive its index row (`RowRoundTripIff`,
  `SpaceReplacesTheLabel`). Directory entries take slots, so that a directory is a training label exactly
  if one of its files stands at a rank that goes to training (`LabelIsKeptIff`, `HeaderTakesTheLabel`).
  A negative numeric label passes the bounds check and panics (`TranslateLabels`, `NegativeAnswerPanics`).
  An index file that cannot be written is ignored (`SaveTrainTestData`, `UnwritableIndexIsIgnored`).

The comment on `casUpdate` (models.go:34-36) describes its first result as "updated due to calling
this method"; that is what is proved. The log lines that call a lost claim "already processed"
(training_job.go:57) promise more than the code gives: a lost claim means that the document was in
Processing.

## Model

| member | source | states |
|---|---|---|
| `RetryLoop.Database.Edit` | models.go:51-56 | an edit takes effect exactly if it carries the newest revision and is not refused; a stale one is answered with a conflict and changes nothing |
| `RetryLoop.Database.Refresh` | training_job.go:129-138 | the copy becomes the newest version, or stays untouched when the retrieve fails |
| `RetryLoop.EditOrRefresh` | models.go:50-66 | a conflict on a copy that was newest means a foreign version arrived; every scheduled foreign version is accounted for |
| `RetryLoop.CasUpdate` | models.go:32-85 | from any copy: true means the newest version is the updater applied to the version just before it, or on an incoherent copy to that copy; false, that nothing was stored and the copy passes the done test; after a store error the copy has the updater applied; at most 2 Edits plus one per foreign version |
| `RetryLoop.UpdateTwice` | dataset_splitter.go:160-161 | unless the store failed one of the two, a repeated update from an equally stale copy returns false and adds nothing as long as nobody else stores a version meanwhile |
| `Documents.UpdatesOneField` | training_job.go:79-126 | every updater writes its own group of fields, whatever was there, and no other |
| `NoLostUpdates.AdvanceKeeps` | models.go:40-85 | one step of any worker keeps every version one updater away from the one before it, and keeps the worker's copies coherent |
| `NoLostUpdates.NextKeepsIff` | models.go:47-83 | every event of every worker keeps the chain of updates and the coherence of all copies, except exactly a store error at the newest Edit of a pointer receiver that stored nothing |
| `NoLostUpdates.InvThroughoutIffClean` | models.go:50-66 | both hold throughout a run if and only if no event of it is of that kind |
| `NoLostUpdates.FaultlessRunsAreClean` | models.go:50-66 | a run without store errors has no such event |
| `NoLostUpdates.EveryVersionIsOneUpdate` | models.go:32-85 | in every clean interleaving each stored version is exactly one call's updater applied to the version immediately before it |
| `NoLostUpdates.FieldsComeFromTheirLastWriter` | models.go:47-83 | in every version each group of fields has the value its last writer gave it |
| `NoLostUpdates.UpdatesSurvive` | dataset.go:130-142 | whatever a worker stored is in the final document unless a later version wrote the same fields |
| `NoLostUpdates.SurvivesIn` | dataset.go:199-249 | the same of any history in which each version is one update: state, log and artifact URLs of different writers all survive |
| `LocalAssignments.AssignedFieldsAreNeverStored` | training_job.go:61-62 | output URLs and the datafile's new source URL never change in any stored version of any run, store errors included |
| `Snapshots.CreatedDuringProcessing` | job_factory.go:10-89 | in every run, store errors included, a worker that is created while its document is in Processing wins no call, stores no version and stops at its first step, however the document changes afterwards |
| `Snapshots.CreatedOutsideProcessing` | job_factory.go:10-89 | one that is created on any other document has the newest revision: as long as nobody stores a version and the store does not fail, its second step stores the claim without a conflict |
| `Snapshots.WriterOfTheInsertedCopy` | dataset.go:239-249 | the endpoint's own writer goes on with the copy it inserted: its first request succeeds exactly if no version has been stored since |
| `Winners.StepOutcome` | models.go:47-83 | a step either stores one version and makes the call return true, or stores nothing and at most makes it return false |
| `Winners.EventBalances` | models.go:50-66 | any event of any state stores a version for a state exactly if its call returns true for it, or takes effect without an answer |
| `Winners.WinnersAreTransitions` | training_job.go:79-91 | in any run whose versions are each one update, calls that returned true for a state, and those that took effect without an answer, are as many as the versions that entered that state |
| `Winners.TrueMeansUpdated` | training_job.go:79-91 | without store errors the calls that returned true for a state are as many as the versions that entered it |
| `NonOverlap.UnclaimedReturns` | training_job.go:50-59 | a claim that returns makes its worker the holder, or ends its run without any further write |
| `NonOverlap.HolderTests` | training_job.go:93-119 | a holder's writes of other fields carry the state Processing |
| `NonOverlap.HolderFinishes` | training_job.go:484-498 | the holder's terminal write turns it into a worker that has released the document with its verdict |
| `NonOverlap.StaysOrderly` | models.go:40-85 | a worker becomes holder only when the document was not in Processing, and only a holder takes it out of Processing |
| `NonOverlap.MoveKeeps` | models.go:40-85 | a move of one worker that respects Processing keeps all the others in order and at most one holder |
| `NonOverlap.AtMostOneHolder` | training_job.go:44-76 | with any number of workers at most one is between its winning claim and its terminal write, and the stored state is Processing throughout |
| `NonOverlap.FailureIsFirstError` | classify_job.go:54-136 | a worker's recorded failure is the first error any of its stages reported |
| `NonOverlap.TerminalVerdict` | training_job.go:463-498 | a winner stores exactly one terminal state, FinishedSuccessfully if and only if all stages succeeded, and a failed one logs its first error |
| `Overwrites.ExclusionStepIff` | models.go:40-85 | of all events of all jobs, exactly those break exclusion that store a terminal state under a holder other than a writer that learns of it |
| `Overwrites.ExclusionIffNeverOverwriting` | dataset_splitter.go:22-46 | over every run with any jobs and any store errors, exclusion holds throughout if and only if no such event happens |
| `Overwrites.ClaimWinsIff` | training_job.go:50-59 | in any run, a claim that returns has won exactly if neither its copy nor the document is in Processing, finished or not, and only then stored a version |
| `ProtocolWitnesses.AloneRun` | models.go:40-85 | a call that no other worker interrupts returns after one, two, three or four steps, depending on what its copy and the newest version pass, with a result computed from these two |
| `ProtocolWitnesses.FinishedJobRunsAgain` | job_factory.go:10-89 | a run in which a worker with an old snapshot claims a finished datafile again |
| `ProtocolWitnesses.SplitterOverwritesLaterClaim` | dataset_splitter.go:159-165 | a run of two splitters in which a holder's document leaves Processing |
| `ProtocolWitnesses.SecondFinishBreaksExclusionIff` | dataset_splitter.go:159-165 | in any run, a step of the second finish breaks exclusion exactly if it is the Edit of a newest copy and some worker holds |
| `ProtocolWitnesses.DownloadOverwritesLaterClaim` | dataset_splitter.go:197-230 | a run of two download jobs in which a holder's document leaves Processing |
| `ProtocolWitnesses.FailedDownloadIsFinished` | dataset_splitter.go:197-230 | a run whose download failed, was recorded as Failed and ends FinishedSuccessfully with the error in the log |
| `ProtocolWitnesses.StoreErrorOnClaimBreaksExclusion` | training_job.go:50-54 | one store error on a claim is enough to break exclusion |
| `ProtocolWitnesses.ErroredClaimBreaksExclusionIff` | training_job.go:50-54 | in any run, a step that records the failure of an errored claim breaks exclusion exactly if it is the Edit of a newest copy and some worker holds |
| `ProtocolWitnesses.UnansweredClaimIsStored` | models.go:50-58 | a run in which a claim takes effect although its answer is a store error |
| `ProtocolWitnesses.StoreErrorSmugglesResults` | classify_job.go:121-127 | one store error while saving results yields a version that is not one updater away from its predecessor |
| `Spoiling.ChainStepIff` | models.go:47-83 | of all events of all jobs, exactly those break the chain of updates that store what an errored call left behind, in another field or with a write that changes nothing |
| `Spoiling.ChainIffNeverSpoiling` | models.go:47-83 | over every run with any jobs and any store errors, every version is one update of its predecessor if and only if no such event happens |
| `Spoiling.SpoilersRecordAFailure` | classify_job.go:121-127 | the first such event of a run records a store error, as Failed or in the log, for a worker whose receiver still has the newest revision |
| `Spoiling.ErrorLeavesUpdateBehind` | classify_job.go:551-568 | after a store error that dirties its receiver, a worker that nobody interrupts comes to store a copy with the errored update in it exactly if it records its errors and that copy does not yet look failed in the state or, where the job logs, in the log |
| `Spoiling.LeftBehindReachesHistoryIff` | classify_job.go:551-568 | that Edit, whether its answer arrives or not, breaks the chain exactly if it takes effect and writes another field than the errored call or changes nothing |
| `Downloads.DownloadEndsFailedIff` | dataset_splitter.go:197-230 | in every interleaving without store errors, a finished download left Failed and its logged error as its last state exactly if the blob store could not be opened, and then stored no FinishedSuccessfully; else it left FinishedSuccessfully, whatever its downloads did |
| `Downloads.FailureIsFirstReport` | dataset_splitter.go:169-178 | the only error that ends a download is that of its first stage |
| `Scripts.WorkersPlayTheirPrograms` | training_job.go:44-76 | in every run, with any store errors, a worker's calls so far and what it has left are determined by how its own stages and calls ended; other workers cannot change which calls it makes |
| `Scripts.WorkersCanMove` | training_job.go:44-76 | no worker with something left to do is ever stuck |
| `Updates.UpdateDocument` | classify_job.go:435-498 | in any environment: on a store without errors the call does not fail, and what is stored is what calls won; a call that does not fail leaves a copy or a version in which its update is done; on a quiet store at most one version, and true exactly if neither the copy nor the newest version was done |
| `Updates.End` | training_job.go:461-498 | a verdict and then the log, from one copy, whatever its state; the log is skipped only if the state ends in a store error, and neither does on a store without errors; the exact document on a quiet store |
| `Updates.ClaimDocument` | training_job.go:50-59 | a claim with the recording of its error, which a store without errors never makes necessary; it is lost only if its copy or a version since is in Processing, and the failure of an errored one is stored; alone it wins exactly if neither the copy nor the document is in Processing, and else changes nothing |
| `TrainingRuns.RunTraining` | training_job.go:44-76 | in any environment: on a store without errors no call fails, and the versions stored are exactly what the listed calls won, each one updater on its predecessor; alone, untouched if in Processing, else finished with labels and model or Failed with the first error, and no assigned URLs |
| `TrainingRuns.TrainingIsStored` | training_job.go:64-74 | in any environment, a run that won its claim and whose calls did not fail has stored, in versions since the claim, the labels, the model URL and FinishedSuccessfully, or Failed and the first error |
| `TrainingRuns.TrainingPlays` | training_job.go:44-76 | for every way the stages and calls can end, those calls are the ones of the state machine's training program, run to its end |
| `ClassifyRuns.RunClassify` | classify_job.go:48-138 | in any environment: on a store without errors no call fails, versions are what the calls won, and the ending is exact: finished with the translated answers if and only if the claim won, no stage fails and every answer can be translated; alone, the document of each ending |
| `ClassifyRuns.ClassificationIsStored` | classify_job.go:121-136 | in any environment, such a run has stored the results it ends with and FinishedSuccessfully, or Failed and the error |
| `ClassifyRuns.ClassifyPlays` | classify_job.go:48-138 | those calls are the ones of the classify program with the translated answers, run to its end unless the translation panics |
| `DatasetRuns.RunSplit` | dataset_splitter.go:22-167 | in any environment: on a store without errors no call fails and versions are what the calls won; alone, Failed with the first error in the order of the code, or finished by exactly one version after the claim |
| `DatasetRuns.SplitIsStored` | dataset_splitter.go:144-167 | in any environment, such a run has stored FinishedSuccessfully, or Failed and the first error |
| `DatasetRuns.SplitPlays` | dataset_splitter.go:48-167 | those calls are the ones of the splitter program with its two finishes |
| `DatasetRuns.RunDownload` | dataset_splitter.go:169-232 | in any environment: on a store without errors no call fails and versions are what the calls won; alone, the exact document with the last download error in the log |
| `DatasetRuns.DownloadIsStored` | dataset_splitter.go:197-230 | in any environment, such a run has stored its verdict, and each download error as Failed and in the log |
| `DatasetRuns.DownloadPlays` | dataset_splitter.go:169-232 | those calls are the ones of the download program, with each download error recorded on the way |
| `DatasetRuns.AddArtifactUrls` | dataset.go:239-249 | on a store without errors the call does not fail and the one version it may store is what it won; without an error the copy has both URLs |
| `DatasetRuns.ArtifactWriterPlays` | dataset.go:239-249 | that call is the one of the state machine's program |
| `DatafileRuns.RunDatafile` | datafile_downloader.go:17-62 | in any environment: on a store without errors no call fails and versions are what the calls won; alone, only the state changes: neither the new URL nor the message of a failure is stored |
| `DatafileRuns.CopyIsStored` | datafile_downloader.go:40-62 | in any environment, such a run has stored its verdict |
| `DatafileRuns.DatafilePlays` | datafile_downloader.go:17-62 | those calls are the ones of the datafile program, whose failures are recorded by the state alone |
| `Allocation.Balance` | dataset_splitter.go:296-310 | 1 - a <= train*b - test*a <= b after every entry |
| `Allocation.ClosedForm` | dataset_splitter.go:296-310 | after n entries exactly floor((n*a + b) / (a + b)) went to training |
| `Allocation.DecisionIff` | dataset_splitter.go:296-310 | entry n goes to training exactly if n*a + b leaves at least b over multiples of a + b |
| `Allocation.ZeroRatio` | dataset_splitter.go:296-310 | with a training ratio of 0 training still gets the first entry, and everything if both ratios are 0 |
| `Allocation.FirstTrainsSecondTests` | dataset_splitter.go:296-310 | the first entry of a directory trains and its second one tests |
| `Allocation.Scaling` | dataset_splitter.go:293-310 | a common factor of both ratios changes no count and no decision |
| `Allocation.Periodicity` | dataset_splitter.go:293-310 | the decisions repeat every (a + b)/g entries, with a/g training and b/g test entries each time |
| `Allocation.ExactRestarts` | dataset_splitter.go:296-310 | once the counts are in the exact ratio the splitter goes on as if it started afresh |
| `Allocation.PeriodsAreExact` | dataset_splitter.go:296-310 | a length is a period of the decisions if and only if that many entries are split in the exact ratio |
| `Allocation.LeastPeriod` | dataset_splitter.go:293-310 | a length is a period if and only if it is a multiple of (a + b)/gcd(a, b), the least one |
| `Sharing.PartsMergeBack` | dataset_splitter.go:245-286 | the two parts, laid back together, are the source: nothing lost, repeated or reordered |
| `Sharing.KeysAreIndependent` | dataset_splitter.go:295-310 | each directory is split as if it were alone, however directories interleave |
| `Sharing.PartCounts` | dataset_splitter.go:295-310 | the two parts hold, for each directory, the counts of the online allocator |
| `Sharing.KeysGetTheirShare` | dataset_splitter.go:295-310 | each directory's share of both parts in closed form |
| `Splitter.Router.Route` | dataset_splitter.go:296-310 | the closure decides by the rank of the entry in its own directory, and its map keeps the counts of every directory |
| `Splitter.CopyEntry` | dataset_splitter.go:261-269 | one entry goes to the writer of its rank, whole or, when reading or writing fails, as a header with a front part of its body; the other writer is untouched |
| `Splitter.Transform` | dataset_splitter.go:245-286 | succeeds exactly when the source ends well and both streams have room, then with both parts complete and closed; otherwise the writers hold the parts of the entries up to the first for which there is no room and at most a front part of that, in its own writer; no writer is closed unless all was copied |
| `Splitter.PartsShareTheCost` | dataset_splitter.go:245-286 | the two parts together take up what the archive does |
| `PipeStage.NextKeeps` | dataset_splitter.go:96-142 | for each side, what is read, in the pipe, held back and still to come is always the same stream; pipes close after the trailers |
| `PipeStage.MeasureDecreases` | dataset_splitter.go:67-157 | every event of every goroutine shrinks one measure |
| `PipeStage.RunsAreBounded` | dataset_splitter.go:67-157 | so no run is longer than the measure of its start, without any fairness |
| `PipeStage.StuckIffAbandoned` | dataset_splitter.go:122-147 | a reachable state is stuck if and only if a Put left data in its pipe and the awaited result is missing |
| `PipeStage.DeadlockFree` | dataset_splitter.go:67-157 | if both Puts read on, some event is possible until the caller has all three results |
| `PipeStage.EveryPutGetsItsPart` | dataset_splitter.go:96-147 | then each Put has received exactly what was written to its side, and the gzip trailer |
| `PipeStage.ClosedAfterTrailers` | dataset_splitter.go:98-104 | no pipe is closed before both gzip trailers have been read |
| `PipeStage.AbandonedHangs` | dataset_splitter.go:122-147 | once a Put has left data behind and the other goes on reading, at most one more event can happen and the caller still waits |
| `PipeStage.CallerGoesOn` | dataset_splitter.go:101-147 | once both Puts are over and the transform has reported, the caller has all its results without waiting for the streams to be closed |
| `ArchiveStage.StageStoresTheSplit` | dataset_splitter.go:67-157 | in every interleaving the two stored archives are the two parts of the split, complete |
| `Text.JoinPrefixes` | solver.go:608 | joining a canonical name to a directory only prefixes it |
| `Text.JoinAddsNoSpace` | solver.go:608 | joining space-free names gives a space-free path |
| `Text.DirOfMember` | dataset_splitter.go:297 | a directory entry d/ and a file d/f both lie in directory d |
| `Text.DirOfTopLevel` | dataset_splitter.go:297 | a file at the top of an archive lies in directory "." |
| `Text.CleanDropsDots` | solver.go:608 | path.Clean: empty and "." elements go |
| `Text.CleanGoesUp` | solver.go:608 | path.Clean: a plain element in front of ".." goes with it |
| `Text.CleanAtTheStart` | solver.go:608 | path.Clean: ".." goes at the root and stays at the start of a relative path |
| `Text.ParseOfSigned` | classify_job.go:580 | a printed number parses with any sign if and only if it fits into 64 bits |
| `Text.ParseOfJunk` | classify_job.go:580 | anything but digits behind an optional sign is refused |
| `Text.ParseOfDecimal` | classify_job.go:580 | a printed label number parses back to itself |
| `Labels.AddLabelsToToc` | solver.go:634-671 | the labels are the distinct directories in first-appearance order, and each line carries the number of directory changes up to it |
| `Labels.DistinctIsASet` | solver.go:660-662 | the label list has no repetition and exactly the directories of the entries |
| `Labels.DistinctOfPrefix` | solver.go:660-662 | the list of a prefix is a prefix of the list |
| `Labels.GroupedDecodes` | solver.go:641-667 | on grouped entries each number indexes its own directory |
| `Labels.LabellingIsRightIffGrouped` | solver.go:634-671 | every number indexes its own directory if and only if no directory recurs after a different one |
| `IndexLines.AddParentDirToToc` | solver.go:601-615 | keeps order and length, and fails exactly on an entry without a space |
| `IndexLines.ParentLineIff` | solver.go:601-615 | an entry gets a line exactly if it has a space, made of the joined first word and the second |
| `IndexLines.RowRoundTrip` | tools/data_converter.go:115-125 | path and label of a space-free entry come back from its row |
| `IndexLines.RowRoundTripIff` | tools/data_converter.go:115-125 | for canonical names the round trip holds if and only if the name has no space |
| `IndexLines.RowIsReadIff` | tools/data_converter.go:115-125 | a row is read as x and y exactly if it is these two words, without spaces, and one space |
| `IndexLines.WriteIndex` | solver.go:508-515 | any table of contents gives one row per entry in order, and each row of a space-free name read back gives the entry's path and number |
| `Classification.TranslateLabels` | classify_job.go:573-599 | succeeds exactly when every value can be read, with exactly the keys of the input; refused and panicking inputs told apart |
| `Classification.ReadOfDecimal` | classify_job.go:580-590 | a printed number is read as its label if there is one and refused if it is too large; a negative one panics |
| `Classification.ReadOfJunk` | classify_job.go:580-583 | anything that is not a number is refused |
| `Classification.ReadOfNumber` | classify_job.go:580-590 | printing a number and reading it gives the directory exactly when the number decodes in the list |
| `Classification.ReadingInvertsLabellingIffGrouped` | classify_job.go:573-599 | reading inverts labelling if and only if the table of contents is grouped |
| `Classification.ClassifyEntries` | classify_job.go:573-599 | for a grouped table of contents the results name every image's own directory |
| `TrainTest.TrainingHasAllLabels` | solver.go:511-513 | the training labels are all labels in first-appearance order, whatever the ratios |
| `TrainTest.TestLabelsAreTheRepeated` | solver.go:508-509 | a directory is a test label if and only if it has at least two files |
| `TrainTest.TestLabelsOfGrouped` | solver.go:508-509 | on a grouped archive the test labels keep the order of all labels |
| `TrainTest.LabelListsAgreeIff` | solver.go:565 | the two label lists are equal if and only if every directory has at least two files |
| `TrainTest.PartsOfGroupedAreGrouped` | dataset_splitter.go:288-311 | both parts of a grouped archive are grouped |
| `TrainTest.DecodesWithOtherListIff` | solver.go:511-513 | another list decodes the numbers of grouped entries if and only if it starts with their own list |
| `TrainTest.TestNumbersMatchTrainingLabelsIff` | solver.go:511-515 | test numbers decode with the training labels if and only if no single-file directory precedes one with more |
| `TrainTest.PartGetsAFileIff` | tar_util.go:62-65 | whatever directory entries stand among the files of a directory, a part gets a file of it if and only if some file has a rank that the splitter sends there |
| `Pipeline.LabelIsKeptIff` | tar_util.go:62-65 | a directory of any archive is a training label if and only if one of its files stands at a rank, counted with its directory entries, that goes to training |
| `Pipeline.HeaderAndFiles` | tar_util.go:62-65 | every canonical directory name has such archives, with any files |
| `Pipeline.UntarWithToc` | tar_util.go:42-92 | succeeds exactly if the archive is whole, every entry can be written and no name starts with a dot, and then lists all files in archive order |
| `Pipeline.TocListsFiles` | tar_util.go:62-65 | the table of contents has every file of the archive, once and in order, and no directory |
| `Pipeline.IndexArtifact` | solver.go:466-515 | fetching, extracting and indexing one artifact succeeds exactly if it is ready, even if its index file cannot be written |
| `Pipeline.SaveTrainTestData` | solver.go:443-569 | succeeds exactly if the blob store opens and both artifacts can be fetched and extracted; only the training list is kept, each archive is numbered on its own, a failed index file is ignored, nothing is labelled for leveldb data; ordinary archives are always saved, and none with a hidden name |
| `Pipeline.OrdinaryArchivesGoThrough` | solver.go:443-569 | every whole, writable archive without a name that starts with a dot, for which there is room, is split, extracted and saved; none with such a name is |
| `Pipeline.SplitLabelListsAgreeIff` | solver.go:565 | from the archive: training list is all directories, equal to the test list if and only if every directory has two files |
| `Pipeline.TestNumbersReadWithTrainingLabelsIff` | solver.go:511-515 | the test index read with the kept labels names the right directories if and only if single-file directories come last |
| `Pipeline.TrainingNumbersReadBack` | solver.go:506-513 | the training index read with the kept labels always names the right directories |
| `Pipeline.PartsAreExtractable` | tar_util.go:58-60 | an archive can be extracted if and only if both its parts can |
| `Pipeline.SplitAndSave` | solver.go:443-569 | split, storage, extraction, numbering and indexing in one: it goes through exactly if the source ends well, both streams have room, the artifacts are kept and every entry can be extracted |
| `PipelineWitnesses.QuittingPutHangsTheStage` | dataset_splitter.go:122-147 | a run of two events after which the caller never gets all its results |
| `PipelineWitnesses.SingleFileHasNoTestLabel` | solver.go:565 | an archive of one file whose two label lists differ |
| `PipelineWitnesses.TestNumberNamesTheWrongDirectory` | solver.go:511-515 | files in directories A, B, B: the test index read with the training labels is wrong |
| `PipelineWitnesses.RecurringDirectoryHasNoLabel` | solver.go:641-667 | directories A, B, A: the third entry's number is beyond the label list |
| `PipelineWitnesses.SpaceReplacesTheLabel` | tools/data_converter.go:115-125 | the row of a name with one space reads back as the first word with the second word as its label |
| `PipelineWitnesses.HeaderTakesTheLabel` | tar_util.go:62-65 | at equal ratios a directory entry costs a directory with one file its training label |
| `PipelineWitnesses.NegativeAnswerPanics` | classify_job.go:580-590 | the answer -1 brings the translation down |
| `PipelineWitnesses.UnwritableIndexIsIgnored` | solver.go:508-515 | saving succeeds without either index file |
| `PipelineWitnesses.UndecodableFirstAnswer` | changes_listener.go:45-66 | one undecodable answer at the start ends the listener |
| `ChangesFeed.ProcessChanges` | changes_listener.go:73-207 | schedules, each once and in order, exactly the changes that are not deleted, are no user documents, and are pending documents of one of the four job types |
| `ChangesFeed.FollowChangesFeed` | changes_listener.go:38-71 | every delivered change is examined once and in order whatever later polls fail; the listener dies exactly if the first answer cannot be decoded or some answer has no sequence number |
| `ChangesFeed.FeedEndsIff` | changes_listener.go:45-66 | what ends the listener: an undecodable first answer, or any answer without a sequence number |
| `ChangesFeed.AllIsDelivered` | changes_listener.go:45-66 | the changes examined are as many as the answers contain, or the whole feed |
| `SerialScheduler.SelectedArePicked` | changes_listener.go:73-207 | the entries that get to ScheduleJob are exactly the pending documents of the four job types, in feed order |
| `SerialScheduler.CreatesAJobIff` | job_factory.go:10-89 | a job is created exactly if its document is retrieved and of one of the four types |
| `SerialScheduler.Progress` | inprocess_jobscheduler.go:24-44 | as long as there is an entry to read, an entry that waits or a job that has not ended, some event is possible |
| `SerialScheduler.MeasureDecreases` | inprocess_jobscheduler.go:24-44 | every event lowers one measure |
| `SerialScheduler.RunsComeToTheirEnd` | inprocess_jobscheduler.go:24-44 | a run has at most four events for each entry, and one that cannot go on has examined the whole feed and run every job that could be created to its end |
| `SerialScheduler.NextKeeps` | inprocess_jobscheduler.go:24-44 | every event keeps the wait group at 0 or 1 and all jobs but the last one ended |
| `SerialScheduler.JobsRunOneByOne` | inprocess_jobscheduler.go:24-44 | job bodies never overlap and run in the order of the entries that passed the filters and could be created |

## Left out

- HTTP endpoints, authentication, command-line tools, NSQ, cloud templates, environment checks: plumbing.
- Blob stores, gzip and tar byte formats, the filesystem, and running Caffe or Python: foreign calls.
- Solver and protobuf rewriting, and the JSON form of the processing state: easy members.
- The floating-point conversion of the percentages to ratios, and isSplittable (dataset.go:113-127), which
  truncates a fractional percentage to 0; Go's integer overflow in the splitter's products.
- Writing index files line by line and scanning them back: a name with a newline is not modelled.
- The scheduler's wait group, the pipes and the goroutines are values inside state machines rather than
  shared objects; blocking is an event that is not enabled.
- NonOverlap.AtMostOneHolder: does not cover the two dataset jobs, for which it is false; the exact condition
  for all jobs stands beside it.
- NonOverlap.TerminalVerdict: requires that the run has no store errors; a worker that has not come to its
  end (a crash, say) has no verdict. A datafile's failure message is dropped by the code and so not claimed.
- Downloads.DownloadEndsFailedIff: requires that the run has no store errors; it speaks of the last state that
  the job itself stored or found, since other workers may change the dataset afterwards.
- TrainingRuns.RunTraining: the text of errors is given; how the code wraps it in further text is not modelled.
- Splitter.Transform: a stream that fails inside a header is taken to hold nothing of that entry.
- Pipeline.UntarWithToc: what is left on disk after a failure is not modelled.
- Classification.TranslateLabels: takes int as 64 bits wide, and says nothing about which error comes first,
  since Go ranges over a map in any order.
