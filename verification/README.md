# BMD Compute: a verified model of its protocols and rewrites

This project models the parts of BMD Compute in which a mistake costs compute time or a
wrong calculation, and proves what they keep. `dafny verify dfyconfig.toml` checks all of
it (Dafny 4.11).

| files | what they model |
|---|---|
| `SubmissionProtocol`, `SubmissionSafety`, `SubmissionTheorems`, `SubmissionLapses`, `RemoteRunner` | Prepare and Submit requests racing on one submission attempt: remote state file, `mkdir` lock, run files, `sbatch` |
| `Ledger`, `LedgerTheorems`, `LedgerRequests`, `LedgerCaps`, `AttemptLedger` | the machine-API ledger: binding, reservations, caps, stale reads |
| `MachineExecution`, `MachineTheorems`, `MachineCounting`, `MachineLasting` | the two composed, for one attempt: PUTs and lookups working on both |
| `ManyAttempts`, `ManyCaps` | the same for any number of attempts on one ledger, and exactly when the caps hold |
| `RunNames` | labels, run timestamps, run directories |
| `PackageGuard`, `PackageTheorems`, `PackageUpload` | the runtime-package guard, the upload it checks, the import finder it protects |
| `LocalRunner`, `RunnerTheorems` | the local stage runner |
| `KpointMesh`, `KpointGrid`, `KpointReplacement` | full-zone k-point meshes and the replacement of weighted points |
| `ResultsCache` | the cache of completed results |
| `Workflows`, `DefaultTreatments`, `TreatmentTheorems` | workflow validation, admission and automatic treatments |

## How the concurrent parts are modelled

A request to the remote host is a process with a program counter; one event performs one
remote operation of one process and says how it ends: it works, raises before, halfway or
after its effect, loses its exit code, or loses its reply. Processes may crash anywhere. A run
is any sequence of events, of any number of processes. The state file is truncated before it
is filled, so readers can meet a torn file. `RemoteRunner.Runner` is the same
request written as the program it is, on mutable fields, with arbitrary foreign events
between its operations. What will surround each operation, and how it will end, is given in
advance, turn by turn; and after any number of turns the runner's state is that of the machine
after its past and exactly the events of those turns. The ledger has the same two faces:
`Ledger` is the machine, `LedgerRequests` says what a binding, a refresh and a reservation
answer and write, and `AttemptLedger.AttemptLedger` is the object whose methods and loops are
proved to answer and write exactly that.

Assumptions of the protocol results, all explicit in the statements:

- `TRUTHFUL`: a non-zero exit of `sbatch` means that nothing was queued, and `test -f` does
  not deny an existing file. `AtMostOneJobExactlyWhenTruthful` proves that both are needed:
  the attempt queues at most one job in every run exactly when neither report can be false.
- An operation that has returned or raised has no later effect, and a client process that is
  gone does not act again.
- The clock does not run backwards.
- Runs of the ledger alone (`LedgerCaps`): a reservation is asked for by the principal of the record, and nothing but
  PREPARED is recorded before one is asked for. Runs of the machine have both properties
  (`ManyAttempts.TraceIsPermitted`).

K-points use exact reals in place of floating point.

## What the code does otherwise than its documentation says

- Rolling caps on creations and on submissions (`compute_api/execution.py:345-350`,
  `compute_api/execution.py:583-615`): stamps are cut to whole seconds but the cutoff is not, so
  "in any rolling 24 hours" (`docs/machine_api.md:302-304`) is missed by up to 999 999
  microseconds. `LedgerCaps.RollingWindowExactly` and `ManyCaps.SubmissionsExactly` give
  the exact lengths that are kept; `LedgerCaps.OneTooMany` and `ManyCaps.OneTooManyInADay`
  are runs that break longer ones, the second a run of the whole machine.
- The caps on active jobs and on submissions (`docs/machine_api.md:296-303`) are checked when
  a reservation is granted and can be passed later. Over all runs of the machine they hold
  exactly when no attempt has two PUTs in flight and, for the active cap, the scheduler never
  takes "finished" back (`ManyCaps.ActiveJobsExactly`, `ManyCaps.SubmissionsExactly`); told on
  the ledger alone, what must not happen is a submission recorded on a record whose
  reservation was released (`ManyCaps.ActiveCapExactly`, `ManyCaps.SubmissionCapExactly`).
- "Before refusing, Compute refreshes the principal's other jobs" (`docs/machine_api.md:299-301`):
  whether to refresh is decided at a first look, and the refusal at a second one.
  `LedgerRequests.UnrefreshedRefusalExactly` says which refusals come without a refresh,
  `LedgerCaps.RefusedWithoutRefresh` is one.
- An unanswered scheduler query keeps what the record that was read before says, so a refresh
  that overlaps another one can take "finished" back (`LedgerCaps.NewsTakesBackExactly`).
- Two overlapping PUTs of one attempt can leave a queued job uncounted
  (`MachineCounting.UncountedJob`), to be recorded late (`MachineLasting.LateLookup`).
- A Prepare that fails while it uploads over a PREPARED attempt leaves PREPARED standing over a
  broken file, and a later Submit queues a job that reads it (`SubmissionLapses.JobReadsABrokenFile`).
  Jobs always read whole files exactly when no upload can end halfway
  (`SubmissionLapses.JobsReadWholeFilesExactly`).
- A submit that finds the attempt already SUBMITTED under its own claim answers without
  releasing the claim (`backend/paramiko_remote.py:1100-1105`): `SubmissionLapses.EarlyReturnKeepsTheClaim`
  is such a run, and by `SubmissionLapses.ClaimKeptExactly` it is the only way in which a Submit all of
  whose operations work keeps its claim.
- Folding is documented as (-0.5, 0.5] (`backend/calculations/hse_band_kpoints.py:59-60`); the code
  folds into (-0.499999, 0.500001]. `KpointMesh.DocumentedRangeExactly` says for which coordinates
  the two agree, `KpointMesh.FoldLeavesTheDocumentedRange` gives one for which they do not, and by
  `KpointGrid.MeshesInDocumentedRangeExactly` mesh points keep the documented interval exactly
  below half a million divisions per axis.
- The automatic dispersion treatment replaces a D3 method chosen in the base workflow by D3(BJ),
  and the automatic DFT+U parameters replace frozen ones (`TreatmentTheorems.TreatmentOnlyAdds`).
- A lookup of a completed result by job reads the key and fetches the entry in two locked
  sections (`backend/results.py:332-342`): a store of the same job under another key in between
  makes its answer an outdated one (`ResultsCache.OutdatedHit`).
- Cache keys are joined with bars; `ResultsCache.ConfusedExactly` says exactly which keys share
  their text with another one.
- A manifest key that spells an unreadable directory is reported twice, once as the directory
  and once as a missing file (`PackageTheorems.RepeatedPath`); by
  `PackageTheorems.ReportedOnceExactly` that is the only repetition, and by
  `PackageUpload.UploadReportsOnce` it never happens with the manifest of an upload.

## Model

| member | source | states |
|---|---|---|
| SubmissionTheorems.AtMostOneJobExactlyWhenTruthful | backend/paramiko_remote.py:1073-1174 | over every run of any number of Prepare and Submit requests with any step failing, half-finishing or crashing, at most one job is queued, if and only if neither `sbatch` exits nor `test -f` can lie |
| SubmissionTheorems.TwoJobsWhenExitsLie | backend/paramiko_remote.py:1122-1133 | a run that queues two jobs when `sbatch` exits non-zero after queueing |
| SubmissionTheorems.TwoJobsWhenTestsLie | backend/paramiko_remote.py:1275-1278 | a run that queues two jobs when an existing state file is reported missing |
| SubmissionTheorems.QueuedIsForever | backend/paramiko_remote.py:1095-1172 | once a job is queued the jobs and files never change, the state file is never absent or PREPARED again, and until it says SUBMITTED the submitter's lock stays and the submitter is only at the writes that follow `sbatch`, ended or crashed |
| SubmissionTheorems.ArtifactWritesAreGuarded | backend/paramiko_remote.py:1010-1050 | any step that changes a run file is made by the lock holder, changes one file, while the state is absent or PREPARED with the same fingerprint and nothing is queued |
| SubmissionTheorems.FingerprintNeverChanges | backend/paramiko_remote.py:1301-1349 | any two readable state files of one run, however far apart, carry the same fingerprint |
| SubmissionTheorems.RecordsNameTheJob | backend/paramiko_remote.py:1373-1446 | a record answered by any request names the one queued job, of the request's own fingerprint, and the job reads files all uploaded from it |
| SubmissionTheorems.PrepareWorks | backend/paramiko_remote.py:1015-1044 | an undisturbed Prepare of a fresh or PREPARED attempt ends PREPARED with the lock free: the guards do not block honest use |
| SubmissionTheorems.SubmitWorks | backend/paramiko_remote.py:1091-1172 | an undisturbed Submit queues one job of the uploaded files, or goes back to PREPARED when refused, and frees the lock |
| SubmissionTheorems.SubmittedIsAnswered | backend/paramiko_remote.py:1057-1066 | in every run, a Submit of an attempt that is SUBMITTED already answers the job that is there, as submitted before, and changes nothing, whatever others do before it reads |
| SubmissionLapses.JobsReadWholeFilesExactly | backend/paramiko_remote.py:1018-1044 | over every truthful run every queued job reads only whole files, if and only if no upload can end halfway |
| SubmissionLapses.JobReadsABrokenFile | backend/paramiko_remote.py:1018-1044 | a truthful run that ends with an answered job that reads a broken file: prepared, half prepared again, submitted |
| SubmissionLapses.JobsReadWholeFiles | backend/paramiko_remote.py:839-849 | in every run in which no upload ended halfway all files of every queued job are there and whole |
| SubmissionLapses.ClaimKeptExactly | backend/paramiko_remote.py:1091-1172 | a Submit all of whose own operations work, among any other requests, ends holding the lock if and only if it ends at its second read, having found SUBMITTED; every other end frees it |
| SubmissionLapses.EarlyReturnKeepsTheClaim | backend/paramiko_remote.py:1100-1105 | a run in which a Submit is overtaken, answers the job of the other one and keeps the lock |
| SubmissionLapses.LostAnswerKeepsTheClaim | backend/paramiko_remote.py:1135-1148 | an undisturbed Submit that does not hear from `sbatch` is an error that leaves SUBMITTING and its claim in place, whether or not a job was queued |
| SubmissionSafety.StepInv | backend/paramiko_remote.py:1073-1174 | every step of every process, however it ends, keeps the protocol invariant |
| SubmissionSafety.RunInv | backend/paramiko_remote.py:1073-1174 | so does every run |
| SubmissionTheorems.CrashIsSilence | backend/paramiko_remote.py:1011-1174 | a request that crashes leaves everything as it is, its claim included; all the rest of the run is as if it had been given no further turn |
| RemoteRunner.Runner.ReadAttemptState | backend/paramiko_remote.py:1275-1291 | what is answered is the file that the foreign events of the turn have left, or what the turn makes of it (missing, unreadable), and it decides where the request goes; exactly one turn of the machine |
| RemoteRunner.Runner.ClaimAttempt | backend/paramiko_remote.py:1351-1359 | `mkdir`: Made exactly when it works on a free lock; Taken exactly when it exits non-zero, the lock being held, or free and not taken, or free and taken with the exit code lost; the lock is taken by this request exactly when it was free and the call took effect; exactly one turn |
| RemoteRunner.Runner.WriteAttemptState | backend/paramiko_remote.py:1293-1330 | truncate and fill, two turns with foreign events before each, or one when the file cannot be opened; it completes exactly when both work, and the file then holds the new content |
| RemoteRunner.Runner.Truncate | backend/paramiko_remote.py:839-848 | opening the state file for writing leaves it torn when it works, and otherwise ends the write; exactly one turn |
| RemoteRunner.Runner.Fill | backend/paramiko_remote.py:839-848 | the file holds the new content when the write works, and also when it raises after its effect; exactly one turn |
| RemoteRunner.Runner.SubmitBatch | backend/paramiko_remote.py:964-987 | an accepted answer has queued one job of this request that reads the files as they are; a refusal queues nothing unless the turn says that the exit code lies; each kind of answer leads to its own write; exactly one turn |
| RemoteRunner.Runner.UploadArtifact | backend/paramiko_remote.py:1018-1031 | one upload: when it works the file is whole and of this request, when not the request goes on to release its claim; exactly one turn |
| RemoteRunner.Runner.ReleaseClaim | backend/paramiko_remote.py:1361-1371 | the `rmdir`, which frees the lock when it takes effect and whose failure changes no reply; exactly one turn |
| RemoteRunner.Runner.PrepareUnderClaim | backend/paramiko_remote.py:1018-1040 | the upload loop, the third read and the PREPARED write, up to the release: every turn used is one of the machine, until the machine is at the release with the same reply |
| RemoteRunner.Runner.Prepare | backend/paramiko_remote.py:1015-1044 | Prepare among any foreign events uses exactly the turns that the machine needs to finish, leaves the state that the machine leaves, and never answers a record. What it sees decides: refused at the first read, nothing is touched; refused at the second, the claim is given up, as it is by the last turn of every Prepare that made it; the first failing upload is an error; the third read decides whether PREPARED is written and the write whether it is a dry run |
| RemoteRunner.Runner.Submit | backend/paramiko_remote.py:1057-1071 | Submit among any foreign events, likewise. SUBMITTED is answered with its job at once and nothing is touched; an absent, unreadable or foreign file is refused; SUBMITTING, or a claim told to be taken, is waited for: the first poll that decides is answered, a record exactly if it finds SUBMITTED, and it expires exactly if none of the polls decides; with the claim made the second read and the outcome of `sbatch` decide |
| RemoteRunner.Runner.SubmitPrepared | backend/paramiko_remote.py:1073-1120 | likewise from the claim on: Made leads to the second read, Taken to waiting, no answer to an error |
| RemoteRunner.Runner.SubmitMarked | backend/paramiko_remote.py:1122-1174 | likewise from `sbatch` on; a record is answered only for a job that `sbatch` reported; the release is reached (a fourth turn used) exactly when `sbatch` answered and both steps of the following write worked, so an unanswered submission keeps the claim |
| RemoteRunner.Runner.WaitForResolution | backend/paramiko_remote.py:1373-1398 | the polling loop: an answered record is what the state file said at the last poll, and it expires exactly after the given number of polls |
| RemoteRunner.Runner.SubmitAnswersTheJob | backend/paramiko_remote.py:1054-1174 | a Submit that answers a record, among any truthful foreign events before and during it, names the only job ever queued, which reads files uploaded from the same fingerprint, all of them whole if no upload ended halfway |
| LedgerTheorems.BindingIsForever | compute_api/execution.py:533-616 | no later events remove a record or change its principal, request hash, plan digest, fingerprint, run timestamp or creation stamp |
| LedgerTheorems.StepsInv | compute_api/execution.py:579-615 | in every run all records have different run timestamps and honest creation stamps |
| LedgerTheorems.UpdatesCommute | compute_api/execution.py:263-306 | submission news and scheduler news of a record that has its job can be written in either order with the same result |
| LedgerTheorems.JobIsForever | compute_api/execution.py:414-452 | a job once recorded is never taken off its record, so scheduler news asked for with a stale record is written to one that has the job |
| LedgerTheorems.StateFollowsNews | compute_api/execution.py:263-306 | the state of a record follows the last reading recorded, PREPARED after a release, REGISTERED at first, and nothing else touches it |
| LedgerTheorems.SubmittedIsAbsorbing | compute_api/execution.py:275-306 | on the ledger alone, a SUBMITTED record keeps its status and job through any stale reads, releases and reservations that report its own job; `MachineLasting.OnceSubmittedAlwaysSubmitted` shows that no others occur |
| MachineLasting.OnceSubmittedAlwaysSubmitted | compute_api/execution.py:263-306 | in the composed machine, with any overlapping PUTs and stale lookups, a record that says SUBMITTED says so for ever, with the same job |
| LedgerTheorems.GrantsStayWithinCaps | compute_api/execution.py:354-381 | a granted reservation leaves the principal within the active and the window cap |
| LedgerTheorems.ActiveCountRisesExactly | compute_api/execution.py:286-313 | the active count rises, by one, exactly on a grant, on a remote submission or uncertainty recorded on a record not counted, or on a scheduler report that takes back "terminal" |
| ManyAttempts.TraceIsPermitted | compute_api/execution.py:263-390 | a run of any number of attempts, with any overlapping requests, does to the ledger what a run of the ledger does in which nothing but PREPARED is recorded on an attempt that never asked for a reservation; without overlapping PUTs of one attempt no submission is recorded on a released record |
| ManyCaps.ActiveJobsExactly | compute_api/execution.py:309-381 | over every run of the machine with any number of attempts and principals the active count stays within the cap, if and only if no attempt has two PUTs in flight and the scheduler never takes back "finished" |
| ManyCaps.SubmissionsExactly | compute_api/execution.py:316-381 | over every run of the machine every stretch of a given length holds at most the cap of submissions of one principal, if and only if no attempt has two PUTs in flight and the length is at least 999999 microseconds short of the window |
| ManyCaps.ActiveCapExactly | compute_api/execution.py:309-381 | for every policy with positive caps: over every run of the ledger the active count of every principal stays within its cap, if and only if no submission is recorded on a released record and no scheduler report takes back "finished" |
| ManyCaps.SubmissionCapExactly | compute_api/execution.py:316-381 | for every policy with positive caps: over every run of the ledger every stretch of a given length, wherever it begins, holds at most the cap of submissions of one principal, counted by the moments at which they were reserved, if and only if no submission is recorded on a released record and the length is at least 999999 microseconds short of the window |
| ManyCaps.OneTooManyInADay | compute_api/execution.py:345-350 | a run of the machine, each job prepared, reserved, queued, recorded and reported finished, that puts one submission too many into any stretch longer than that |
| ManyCaps.OverlapsBreakTheCaps | compute_api/execution.py:665-688 | a run of the machine in which more attempts than either cap allows have two overlapping PUTs each, one releasing the reservation under which the other submits; both caps are passed, the second in a single moment |
| ManyCaps.TakingBackBreaksTheCap | compute_api/execution.py:445-452 | a run of the machine of submitted and finished jobs that passes the active cap when the scheduler takes its reports back |
| LedgerCaps.RefusedWithoutRefresh | compute_api/execution.py:359-381 | a run in which an attempt is refused for the active cap although nothing has been refreshed |
| LedgerCaps.RollingWindowExactly | compute_api/execution.py:583-602 | every stretch of a given length, whenever it starts, holds at most the cap of one principal's creations in every run, if and only if the length is at least 999999 microseconds short of the window |
| LedgerCaps.OneTooMany | compute_api/execution.py:590-596 | a run that puts one creation too many into a stretch one microsecond longer than that |
| LedgerCaps.WholeSecondWindows | compute_api/execution.py:583-602 | with a clock of whole seconds the cap holds over every stretch as long as the whole window |
| AttemptLedger.AttemptLedger.RecordRemoteState | compute_api/execution.py:263-306 | one locked read-modify-write is exactly the machine's event; a vanished record is refused |
| AttemptLedger.AttemptLedger.ReleaseReservation | compute_api/execution.py:384-390 | likewise for the release |
| AttemptLedger.AttemptLedger.RefreshScheduler | compute_api/execution.py:414-452 | likewise for scheduler news: nothing without a job id, and an unanswered query keeps what the stale record says about being finished |
| AttemptLedger.AttemptLedger.OverCaps | compute_api/execution.py:345-350 | the counting loops decide both caps exactly |
| AttemptLedger.AttemptLedger.RefreshActiveRecords | compute_api/execution.py:324-341 | the loop over the listing, with foreign events before each record: the trace grows by exactly the events of refreshing every other active attempt of the principal, in order |
| AttemptLedger.AttemptLedger.DecideReservation | compute_api/execution.py:359-381 | the deciding section reserves exactly when granted, refuses with the right cap first, writes that event and no other, and leaves both caps kept |
| AttemptLedger.AttemptLedger.ReserveSubmission | compute_api/execution.py:344-381 | the answer is the verdict on the state after the first look, the refresh if the first look asks for it, and the foreign events; and the trace is exactly those events and the reservation |
| AttemptLedger.AttemptLedger.BindAttempt | compute_api/execution.py:533-618 | the loop of tries among foreign events answers and writes exactly what `LedgerRequests.Bind` says |
| LedgerRequests.BindsExactly | compute_api/execution.py:533-618 | the first try that is not given up decides, after nothing but foreign events: a record found is answered or refused by its binding; a new id is bound, by one own event with the fields of the request, exactly when there is no record, the plan fits, the timestamp is free and the cap leaves room; and busy is answered exactly when every try is given up |
| LedgerRequests.BoundToThisRequest | compute_api/execution.py:533-618 | an answered record is the one the ledger then holds; its principal, request hash and plan digest are those of the request, and the planner makes of its timestamp the expected plan, within the policy, with its fingerprint |
| LedgerRequests.ExistingDecides | compute_api/execution.py:521-577 | a record that is there already decides alone, whatever others do meanwhile: it is answered exactly if all that agrees, and otherwise refused for the first thing that does not, principal, request, plan digest, policy, bound digest, fingerprint in that order |
| LedgerRequests.RetriedTwiceMeansCollision | compute_api/execution.py:583-615 | of two tries given up in a row the first met a taken timestamp, so busy means that all timestamps but perhaps the last collided |
| LedgerRequests.AllAreRefreshed | compute_api/execution.py:324-341 | every other active attempt of the principal about which the cluster has usable news gets its submission recorded and its scheduler state written |
| LedgerRequests.RefreshedExactly | compute_api/execution.py:324-341 | what refreshing one listed record writes, told from its status and job, what is read of it and what the scheduler says |
| LedgerRequests.OthersAreRefreshed | compute_api/execution.py:324-331 | exactly the other attempts of the principal that are reserved, submitted or uncertain in the listing, and not known there to be finished, are refreshed |
| LedgerCaps.RefreshWrites | compute_api/execution.py:414-452 | an unanswered query leaves the job as finished as the record said and changes nobody's active jobs; an answered one leaves it as the scheduler says; nothing else changes |
| LedgerCaps.NewsTakesBackExactly | compute_api/execution.py:423-452 | scheduler news takes "finished" back exactly if the stored record is finished and the scheduler says the job is not, or says nothing while the record that was read before was not finished yet |
| LedgerRequests.ReservedMeansCounted | compute_api/execution.py:344-381 | after a reservation that is not refused the record is counted |
| LedgerRequests.ReservationExactly | compute_api/execution.py:344-381 | what a reservation answers and writes, told from the record and the two counts at the first look and at the second section, the window before the active jobs |
| LedgerRequests.NeedsRefreshExactly | compute_api/execution.py:352-357 | the refresh is made exactly when at the first look the window has room and the active cap is reached |
| LedgerRequests.UnrefreshedRefusalExactly | docs/machine_api.md:299-301 | a refusal for the active cap comes without a refresh if and only if the first look found the window full or the active cap not reached; in the second case others raised the active count meanwhile |
| LedgerRequests.StillBound | compute_api/execution.py:533-618 | a record once there is there after any continuation, bound as before |
| MachineTheorems.SubmittedRecordNamesTheJob | compute_api/execution.py:633-712 | with any number of overlapping PUTs and stale lookups at most one job is queued, and a record that says SUBMITTED names it |
| MachineTheorems.WorldRun | compute_api/execution.py:633-720 | every run of PUTs, lookups, refreshes and remote steps keeps the combined invariant |
| MachineTheorems.PreparingPutsDoNotSubmit | compute_api/execution.py:633-664 | in every run, whatever overlaps, a PUT that does not want a job asks for no reservation and has no remote Submit |
| MachineTheorems.FailedReadEndsThePut | compute_api/execution.py:633-698 | a read of the remote state that fails ends the PUT and changes nothing else |
| MachineTheorems.CrashedPutIsSilent | compute_api/execution.py:633-703 | when a PUT crashes, the ledger, the state file, the claim, the uploads and the queue stay as they are, and neither it nor its remote processes do anything more, whatever happens |
| MachineCounting.CountedExactlyWithoutOverlap | compute_api/execution.py:633-720 | in every run a queued job's record is RESERVED, UNCERTAIN or SUBMITTED, if and only if at most one PUT of the attempt is in flight at a time |
| MachineCounting.UncountedJob | compute_api/execution.py:665-688 | a run of two overlapping PUTs that leaves a queued job on a RELEASED record |
| MachineCounting.PutWorks | compute_api/execution.py:633-688 | an undisturbed PUT of a freshly bound attempt that is granted its reservation queues its job: the ledger records PREPARED, the reservation and the job, and nothing else |
| MachineCounting.RefusedPutReleases | compute_api/execution.py:677-698 | an undisturbed PUT whose job `sbatch` refuses gives its reservation back |
| MachineCounting.UnheardKeepsReservation | compute_api/execution.py:677-698 | after a remote call that ended without an exit code the reservation stays counted through any reads, lookups and refreshes, as long as no new PUT is made |
| MachineLasting.NeverLateExactly | compute_api/execution.py:297-304 | in every run no submission is recorded on the attempt while its reservation is released, which is the surprise that the caps do not survive, if and only if at most one PUT of the attempt is in flight at a time; lookups may overlap |
| MachineLasting.UnaskedReadsPrepared | compute_api/execution.py:275-306 | in every run, whatever overlaps, nothing but PREPARED is recorded on an attempt for which no reservation was ever asked |
| MachineLasting.LateLookup | compute_api/execution.py:706-720 | a run of two PUTs after which a lookup records a submission on a RELEASED record |
| RunNames.SanitizeIsIdempotent | backend/submission.py:84-88 | any label, with any white space that Python knows, becomes a safe non-empty name of at most 60 characters that does not end in a separator, and is then a fixed point |
| RunNames.WordsAreJoinedByADash | backend/submission.py:84-88 | two safe words keep their spelling and any blanks between them become one dash |
| RunNames.BlanksAroundDoNotMatter | backend/submission.py:84-88 | white space before and behind a label does not change its name |
| RunNames.TimestampTextInjective | backend/submission.py:91-99 | different timestamps are written differently |
| RunNames.DifferentTimestampsDifferentDirectories | backend/submission.py:1326-1328 | whatever the labels and parents, different timestamps give different run directories |
| RunNames.RunDirectoryIsBelow | backend/submission.py:1326-1328 | whatever the label, the run directory is the directory of flows with the name of the run in it |
| RunNames.AttemptsNeverShareADirectory | compute_api/execution.py:583-615 | any two attempts of any run of the ledger have different run directories |
| PackageGuard.ScanDirectory | backend/runtime_package_guard.py:82-108 | the loop over one directory reports and queues together exactly what the recursive account of that directory contains |
| PackageGuard.WalkPackage | backend/runtime_package_guard.py:77-108 | the worklist loop ends, and reports each problem as often as the recursive account, with all paths accounted for |
| PackageGuard.PackageProblems | backend/runtime_package_guard.py:61-113 | the whole check, with missing files, both early exits and the alphabetical order of the messages |
| PackageGuard.MessageTells | backend/runtime_package_guard.py:82-113 | no two reports read alike |
| PackageTheorems.CleanExactly | backend/runtime_package_guard.py:61-113 | no problem is reported if and only if the tree, outside `__pycache__`, has only readable directories and files and its path-to-digest map equals the manifest |
| PackageTheorems.ReportsExactly | backend/runtime_package_guard.py:82-113 | a report of a kind and path is made exactly if something of that kind stands at the path, told from the entry and from what the manifest says of the path, or, for a missing file, if the manifest has the path and nothing but an unreadable directory stands there |
| PackageTheorems.ReportedOnce | backend/runtime_package_guard.py:61-113 | two reports of one path are those of an unreadable directory and of a missing file |
| PackageTheorems.ReportedOnceExactly | backend/runtime_package_guard.py:61-113 | all reported paths are different, if and only if no directory of the tree that cannot be read has its reported name among the keys of the manifest |
| PackageUpload.UploadReportsOnce | backend/runtime_package_guard.py:61-113 | with the manifest of an upload, and whatever has become of the tree, no path is reported twice |
| PackageTheorems.RepeatedPath | backend/runtime_package_guard.py:82-113 | a tree and a manifest with which one path is reported twice |
| PackageUpload.UploadVerifies | backend/submission.py:914-948 | what the upload writes into a fresh directory passes the check against the manifest of that upload, with or without the inserted `__init__` file |
| PackageUpload.UploadSucceedsExactly | backend/submission.py:914-948 | all files can be written exactly if none stands where another needs a directory |
| PackageUpload.OnlyVerifiedFilesAreServed | backend/runtime_package_guard.py:169-196 | after a clean verdict the finder serves only regular files with the recorded digest, packages before modules, and nothing that is not listed |
| LocalRunner.Runner.Execute | backend/execution.py:293-312 | the loop over a flow, mutating the shared sets and recursing into returned flows, equals the recursive meaning |
| LocalRunner.Runner.ExecuteJob | backend/execution.py:234-286 | likewise for one job with its skips, failures and diversions |
| RunnerTheorems.FlowSucceeds | backend/execution.py:293-318 | a flow is reported successful exactly when every job of it and of all nested flows ran, in order, without raising or stopping the jobflow |
| RunnerTheorems.SuccessExactly | backend/execution.py:231-318 | success told from the flow alone: no job anywhere raises or stops the jobflow, and none comes after a job that stopped its children |
| RunnerTheorems.EveryJobIsVisited | backend/execution.py:293-312 | in every run every job of the flow is visited once, in order, each that ran and returned followed by the jobs of the flows it returned, until one stops the jobflow; after that each flow still going on visits one more job, which is not run |
| RunnerTheorems.RanExactly | backend/execution.py:231-275 | a visited job ran exactly if no job before stopped the jobflow, no parent visited before stopped its children or was cut off, and, if it is strict, no parent raised or was skipped for such a reference |
| RunnerTheorems.NoRunAfterAFailedAncestor | backend/execution.py:238-252 | in every run, no job is executed whose ancestor raised, was skipped or stopped its children, through any line of strict jobs |
| RunnerTheorems.NoRunAfterStoppedChildren | backend/execution.py:238-243 | no descendant of a job that stopped its children is executed, strict or not |
| KpointMesh.RoundsToExactly | backend/calculations/hse_band_kpoints.py:208-217 | the rounding used for folding and keys is to the nearest whole number, ties to the even one |
| KpointMesh.FoldRange | backend/calculations/hse_band_kpoints.py:208-212 | folding moves a coordinate by a whole number into (-0.499999, 0.500001] |
| KpointMesh.DocumentedRangeExactly | backend/calculations/hse_band_kpoints.py:208-212 | a folded coordinate lies in the documented (-0.5, 0.5] if and only if its fractional part is not in the millionth above one half |
| KpointMesh.FoldLeavesTheDocumentedRange | backend/calculations/hse_band_kpoints.py:208-212 | 0.5000005 is left where it is |
| KpointGrid.MeshesInDocumentedRangeExactly | backend/calculations/hse_band_kpoints.py:52-69 | all points of all grids of a mesh lie in the documented interval, if and only if every axis has fewer than 500000 divisions |
| KpointMesh.KeyOfFolded | backend/calculations/hse_band_kpoints.py:208-217 | keys of raw and folded coordinates agree |
| KpointMesh.SameShiftDistinct | backend/calculations/hse_band_kpoints.py:63-69 | points of one axis have different keys below a million divisions |
| KpointMesh.ShiftsDistinct | backend/calculations/hse_band_kpoints.py:63-69 | centred and shifted points never share a key up to half a million divisions |
| KpointMesh.Collision | backend/calculations/hse_band_kpoints.py:215-217 | beyond half a million divisions some centred and some shifted point do |
| KpointGrid.FullZoneMeshPoints | backend/calculations/hse_band_kpoints.py:52-69 | the loop over the axes gives the mesh, and refuses all but three positive divisions |
| KpointGrid.MeshIsComplete | backend/calculations/hse_band_kpoints.py:63-69 | the mesh lists n1*n2*n3 points, and they are exactly the grid points |
| KpointGrid.MeshKeysDiffer | backend/calculations/hse_band_kpoints.py:63-69 | all of them have different keys below a million divisions per axis |
| KpointGrid.MatchingFullZoneMesh | backend/calculations/hse_band_kpoints.py:184-205 | the loop over the eight offsets computes the match |
| KpointGrid.MatchExactly | backend/calculations/hse_band_kpoints.py:184-205 | a match is found if and only if exactly one offset fits all points, and is that offset's mesh |
| KpointGrid.NeverAmbiguousExactly | backend/calculations/hse_band_kpoints.py:184-205 | no non-empty set of points ever fits two grids, if and only if no axis has more than 500000 divisions |
| KpointReplacement.ReplacementSamplesTheFullZone | backend/calculations/hse_band_kpoints.py:72-128 | a replacement lists the whole mesh of the only fitting grid first, with weight one each: the total is exactly n1*n2*n3 after and within a millionth of it before |
| KpointReplacement.WeightedPointsLieOnTheMesh | backend/calculations/hse_band_kpoints.py:195-197 | every original weighted point is a mesh point up to whole steps and a millionth |
| KpointReplacement.ReplacementKeepsThePath | backend/calculations/hse_band_kpoints.py:92-128 | after the mesh come exactly the zero-weight points, in order, with their labels and weight zero |
| KpointReplacement.ReplacementSucceedsExactly | backend/calculations/hse_band_kpoints.py:83-119 | for every mesh, the replacement succeeds if and only if the list and the weights meet the documented demands and exactly one grid fits; up to 500000 divisions per axis one that fits is enough |
| KpointReplacement.ReplacementRefusedExactly | backend/calculations/hse_band_kpoints.py:83-119 | what it is refused for is the first demand that is not met, each with its own error |
| KpointReplacement.ReplacementIsIdempotent | backend/calculations/hse_band_kpoints.py:72-128 | for every mesh, replacing again returns the same list |
| ResultsCache.CompletedResults.Store | backend/results.py:345-364 | storing, with the eviction and index loops, is the specified step; anything but a success with job and run directory changes nothing |
| ResultsCache.CompletedResults.Lookup | backend/results.py:323-342 | a lookup by key in one section, or by job in two sections with other events in between, answers and touches as specified |
| ResultsCache.CacheHoldsTheLastFour | backend/results.py:323-364 | after any run the cache is the last four of the unbounded recency list, entries are the last reports stored, and the index sends a job to a key exactly when it is the job's last stored key and still there |
| ResultsCache.HitsAreTheLastStored | backend/results.py:323-342 | in every run, a key is found exactly when it is among the last four, with the report last stored there; every index entry is live and of its own job |
| ResultsCache.LookupByJob | backend/results.py:332-342 | a lookup by job whose index read and fetch are apart: it hits exactly when the key is still among the last four, with the report then last stored under it by that job, which is the last of the job unless the job has turned to another key |
| ResultsCache.OutdatedHit | backend/results.py:332-342 | a store of the same job in between that makes the answer an outdated one |
| ResultsCache.JoinedKeysDiffer | backend/results.py:311-320 | the joined text confuses no two keys without bars in job id and run directory |
| ResultsCache.ConfusedExactly | backend/results.py:311-320 | some other key has the same text, if and only if there is a bar in the job id after its first character, in the output directory, or in the run directory unless that is a single bar |
| Workflows.ValidateWorkflow | backend/calculations/registry.py:468-525 | the loops of the validator find the first problem in the order of the code |
| Workflows.ValidatorExactly | backend/calculations/registry.py:454-585 | nothing is refused if and only if the workflow is valid: sound stages, an analysis only last and fed by a static stage, one dispersion method over connected stages, matching SOC and DFT+U |
| Workflows.ValidMeans | backend/calculations/registry.py:454-585 | validity told from types, theories, modifiers and options alone, stage by stage and pair by pair |
| Workflows.StageRefusedExactly | backend/calculations/registry.py:468-525 | a stage is refused for the first of six demands that it does not meet, each with its own problem |
| Workflows.SupportedExactly | backend/calculations/registry.py:863-1035 | which modifier can be had on which type and theory |
| Workflows.UnsoundIsNamed | backend/calculations/registry.py:468-525 | the problem of the first unsound stage comes before all others |
| Workflows.ClashOrPlaceIsNamed | backend/calculations/registry.py:468-525 | among sound stages with one dispersion the first clash of data is named, and without any the first analysis out of place |
| Workflows.AdmittedExactly | backend/calculations/admission.py:62-118 | new calculations are exactly the valid workflows without a hybrid SOC stage; a valid one that is refused is told exactly the numbers of these stages |
| DefaultTreatments.ApplyTreatment | backend/calculations/default_treatments.py:395-571 | the loop of a treatment changes, records and omits exactly the stages it should, and fails exactly when a changed stage is unsound |
| DefaultTreatments.ResolveDefaultTreatments | backend/calculations/default_treatments.py:172-291 | the resolver computes the specified resolution or refusal |
| TreatmentTheorems.ResolvesExactly | backend/calculations/default_treatments.py:172-291 | treatment goes through if and only if the base is valid, dimensionality is known, SOC and DFT+U do not stop short of the analysis, and DFT+U parameters are well formed; and then it returns a valid workflow |
| TreatmentTheorems.RefusedExactly | backend/calculations/default_treatments.py:172-291 | what treatment is refused for: invalid base, dimensionality, SOC for a PBE analysis, malformed DFT+U, or what makes the result invalid, in this order |
| TreatmentTheorems.TreatmentOnlyAdds | backend/calculations/default_treatments.py:395-571 | stage order, types, theories, names and all modifiers stay; exactly the wanted modifiers are added; of the options only the dispersion method, to D3(BJ), and the DFT+U parameters, to those found, change, and exactly on the PBE relaxations and static stages treated; no stage becomes or ceases to be admissible |
| TreatmentTheorems.TreatmentKeepsAdmission | backend/calculations/admission.py:92-118 | a workflow is open to new calculations after treatment if and only if it was before |
| TreatmentTheorems.TreatmentIsIdempotent | backend/calculations/default_treatments.py:172-291 | treating again goes through, changes nothing and reports the same |
| TreatmentTheorems.NeverRefused | backend/calculations/default_treatments.py:172-291 | with known dimensionality no structure makes it fail on a workflow that ends in no analysis, or in a hybrid analysis of a hybrid static stage |
| TreatmentTheorems.ReportIsExact | backend/calculations/default_treatments.py:395-571 | a stage is recorded under a treatment exactly when the treatment applies to its type and theory |
| TreatmentTheorems.OmissionsAreNamed | backend/calculations/default_treatments.py:452-516 | when SOC is wanted, every stage but a relaxation carries it or is named as an omission, and the omissions are exactly the hybrid stages |
| TreatmentTheorems.NotApplicableExactly | backend/calculations/default_treatments.py:225-264 | SOC is reported as not applicable exactly if it is wanted and every stage is a relaxation, DFT+U exactly if its gate is closed or it is to be applied and no stage is a PBE relaxation or static one, and nothing else ever is |

## Left out

- AttemptLedger.AttemptLedger.BindAttempt: does not model the pause after a timestamp collision, and takes the planner as a function of the timestamp.
- RunNames.TimestampTextInjective: takes timestamps as digits; that they name calendar days is not modelled.
- ResultsCache.CompletedResults.Lookup: takes job ids and directories already trimmed; copies of results are values.
- ResultsCache.ConfusedExactly: also counts keys with blanks at the ends of their parts, which trimming would have removed.
- LocalRunner.Runner.ExecuteJob: does not model `raise_immediately`, stage directories or the copying of files between them.
- DefaultTreatments.ResolveDefaultTreatments: takes what the structure analysis found as given; texts and the advisory list of the report are not modelled.
- Workflows.ValidateWorkflow: names and aliases are taken after normalisation, and messages are kinds; the table of older purpose workflows is left to enumeration.
- The PUT handler as a program: `MachineExecution` models it as a step machine, not as a method.
- Run-directory ownership between attempts (`backend/paramiko_remote.py:1226-1253`): the lock is per attempt, so that check is not atomic across attempts.
- Files of the ledger itself: records are read and written whole; malformed or unreadable record files, and `submitted_at`, labels and resources in records, are not modelled.
- Authentication, request schemas, HTTP codes, SSH and SLURM command text, and the validity of a job id's spelling.
- Progress: an ambiguous submission keeps its lock for ever, by design, so only safety is claimed.
- Floating-point rounding of k-point coordinates.
