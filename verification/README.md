# Aria AI: protocols over one database, proved in Dafny

Three application services of Aria AI share one PostgreSQL database at its default isolation level, READ COMMITTED. Their
correctness rests on a unique-key gate (idempotent create, account bootstrap), a compare-and-swap stamp (title updates) and
row locks with rollback (context versions). This project models those services statement by statement, lets any number of
calls interleave, be cancelled, or lose the reply to a commit, and proves what holds in every reachable state. Around them
it models the cursor-paged project list with the browser's merge of its pages, the create form's choice of idempotency
keys, and five smaller algorithms.

## How the model is laid out

The database:

- `Tables` is one table: committed `rows`, and `pending` row versions tagged with their transaction, which are at once each
  transaction's write buffer and the lock table. `Insert` waits for an in-flight holder of the key; `Update` skips a
  committed row that does not match and waits for a matching row that is locked, to evaluate its filter again.
- `Locking` is the discipline all protocols keep: the pending rows of a table are exactly the rows that open calls hold at
  their program points.
- `Machines` is what all protocols share as state machines: runs, reachable states, and how what every step keeps is carried
  along a run. `Progress`: if whoever is waited for is nearer its end, every call can be brought to its end.

The protocols. A `Sys` is a database with its open calls; a `Step` opens a call, executes one statement or commit,
cancels a call, or commits one without telling its caller:

- `ProjectRuns`, `ProjectInvariant`, `ProjectSteps`: create, title update, archive and soft delete, with a history of
  committed mutations. `ProjectTheorems`: exactly-once create. `ProjectUpdates`: the update chain and progress.
  `ProjectAnswers`: how each create ends, and that retries are answered. `ProjectRace`: exactly when a title update gets
  past an archive. `Slices`, `AccountSlices`, `AccountIndependence`: accounts do not interfere.
- `BootstrapRuns`, `BootstrapProofs`: account bootstrap, while memberships are also added and amended from outside.
- `ContextRuns`, `ContextProofs`, `ContextTheorems`: sources, versions and the derived current version, with a pointer kept
  by maximum beside it. `ContextRace`: exactly when a version comes under a deleted source. `ContextSlices`,
  `ContextIndependence`: accounts do not interfere there either.
- `ProjectService`, `BootstrapService`, `ContextService`: the same calls as methods that update a shared database object,
  other calls being executed between any two statements; each call is proved to be a run of its state machine.
- `Requests`: what a project call checks before its transaction.

The list and the form: `Sorting`, `Pagination`, `PaginationProofs`, `LivePages` (the list read while the service runs),
`ProjectList` (the browser), `CreateForm`, `EndToEnd` (the form on top of the service), `Cursor`.

Printing and reading: `Digits`, `Values` (UUIDs and timestamps), `Json`, `Text` (trimming), `Utf8`, `Base64Url`,
`Projects` (entity, snapshot and canonical payload).

The smaller algorithms: `Resp` (Redis command framing), `Migration` (advisory-lock protocol), `Trace` (trace context),
`DatabaseUrl`, `Identity` and `MembershipReaders` (three readers of the membership table).

Assumptions that a theorem needs are its preconditions: distinct transaction instants (`DistinctStamps`), ids of
projects, sources and versions never shared by two accounts (`FreshIds`), fresh UUIDs in the form (`FreshForms`). SHA-256
is taken to be collision free, so a payload stands for its digest.

## What turned out not to hold as stated

- A title update can commit on an archived project. `ProjectRace.ArchiveRace` says exactly when: over every run, a title
  update that was past its guards when the archive committed writes if and only if the archiving transaction's instant is
  the stamp the update expects. `ProjectUpdates.ArchiveWins` needs that no read-only state of a project carries the stamp
  of a writable one, which distinct instants provide.
- A pending version can appear under a deleted source, exactly when the deletion commits between the create's check and
  the create's own commit (`ContextRace.PendingExactly`); ready and failed versions cannot be made there.
- The migration lock excludes other runners exactly as long as the connection that holds it lives
  (`Migration.ExclusionIsTheConnections`). The upgrade uses connections of its own, in a thread, so two upgrades can
  overlap after the lock's connection is dropped, and after the wait for the first one is cancelled and the lock released
  (`Migration.UpgradesOverlapExactly`). Exit code 0 still means that the head was read under the lock.
- A job context survives its message if and only if its correlation id is a canonically spelled UUID
  (`Trace.MessageRoundTrip`), which HTTP-resolved requests always have.

## Model

| member | source | states |
|---|---|---|
| Locking.CommitHeld | apps/api/app/infrastructure/db/runtime.py:11-21 | under the lock discipline a commit publishes exactly the one row the call holds in a table, or nothing |
| Locking.HeldApart | apps/api/app/infrastructure/db/runtime.py:11-21 | two open calls never hold the same key of a table |
| ProjectTheorems.ReachedInv | apps/api/app/modules/projects/infrastructure/repository.py:35-112 | every state reachable from empty tables, by any interleaving, cancellation and lost reply, satisfies the whole invariant: locks match program points, rows correspond, finished calls were answered correctly, history is complete |
| ProjectTheorems.ExactlyOnce | apps/api/app/modules/projects/application/project_service.py:81-112 | reservations, reserved ids and projects correspond one to one, at most one commit per key created a project, and every create that returned for a key returned that project as its commit left it |
| ProjectTheorems.AnswerIsOriginal | apps/api/app/modules/projects/infrastructure/repository.py:54-76 | a create's answer is the project of the one event that its key comes from, whatever happened to the project since |
| ProjectTheorems.ConflictIsExact | apps/api/app/modules/projects/application/project_service.py:89-94 | a finished create is refused as a conflict if and only if its normalised title or type differs from those of the create its key comes from |
| ProjectTheorems.DeadBranches | apps/api/app/modules/projects/infrastructure/repository.py:61-97 | a create never fails for a missing reservation, a missing or unreadable snapshot, or a reservation that cannot be completed |
| ProjectTheorems.AnswersAreStable | apps/api/migrations/versions/0003_project_create_idempotency.py:39-52 | over every further run committed reservations are never rewritten, finished calls keep their answers and the history only grows |
| ProjectAnswers.CreateEndsExactly | apps/api/app/modules/projects/application/project_service.py:81-112 | where each statement takes a create, by the committed rows: a taken key leads to the conflict branch, a taken project id to a failure, a free one on to the reservation; the project is then written as a new draft, its insert never failing, and the commit returns it as one event |
| ProjectAnswers.RetryIsAnswered | apps/api/app/modules/projects/application/project_service.py:85-94 | a create that lost to its key is answered with the project of the key's one creating event if title and type are the same, and otherwise as a conflict |
| ProjectAnswers.RetriesAreAnswered | apps/api/app/modules/projects/application/project_service.py:81-112 | over every run, once a create under a key has committed, every later create under it that is over and was not cancelled has got exactly that answer |
| ProjectAnswers.CreateWaitsExactly | apps/api/app/modules/projects/infrastructure/repository.py:43-112 | a create waits exactly for an uncommitted reservation of its key or id, or an uncommitted project of its id |
| ProjectAnswers.UpdateWaitsExactly | apps/api/app/modules/projects/infrastructure/repository.py:167-204 | an update, archive or deletion waits exactly while it matches the committed project and another call is writing it |
| ProjectAnswers.InterruptsExactly | apps/api/app/modules/projects/infrastructure/repository.py:225-244 | a cancelled call is rolled back without a trace, and one whose reply is lost has committed all the same |
| ProjectUpdates.UpdateChain | apps/api/app/modules/projects/application/project_service.py:188-208 | every committed title update was made on the state its immediate predecessor committed, carried the stamp that predecessor wrote, and changed title and stamp alone |
| ProjectUpdates.NoLostUpdate | apps/api/app/modules/projects/infrastructure/repository.py:176-191 | with distinct instants two committed title updates of a project never expected the same stamp |
| ProjectUpdates.ArchiveWins | apps/api/migrations/versions/0002_projects.py:16-25 | no title change commits on an archived or deleted project, provided no read-only state of it carries the stamp of a writable one |
| ProjectUpdates.DistinctStampsTell | apps/api/migrations/versions/0002_projects.py:107-114 | distinct transaction instants provide that |
| ProjectUpdates.EventEffect | apps/api/app/modules/projects/infrastructure/repository.py:99-204 | a committed create, title update, archive or deletion changed exactly its own fields and the stamp, of a row of its account that was not deleted |
| ProjectUpdates.EndStates | apps/api/app/modules/projects/infrastructure/repository.py:179-202 | nothing is committed on a deleted project any more, and an archived one stays archived |
| ProjectUpdates.EndsExactly | apps/api/app/modules/projects/application/project_service.py:188-265 | an update, archive or deletion is not found, read only or stale exactly when the project as committed at its statement says so, is returned exactly by its commit, and is rolled back at every other end |
| ProjectRace.LastMutationDecides | apps/api/app/modules/projects/infrastructure/repository.py:176-191 | in every reachable state a title update past its guards writes if and only if the last committed mutation of its project was no deletion and its transaction's instant is the expected stamp; otherwise it is refused as stale |
| ProjectRace.ArchiveRace | apps/api/app/modules/projects/application/project_service.py:188-235 | for every reachable state in which a title update is past its guards and an archive of its project commits, and every further run that leaves the project alone: the update then writes, onto the archived project, if and only if the archive's instant is the stamp it expects; otherwise it is refused as stale |
| ProjectRace.RaceHappens | apps/api/app/modules/projects/application/project_service.py:188-235 | that situation arises from every reachable state with an idle, unarchived project, by the given steps |
| ProjectRace.UpdateOvertakes | apps/api/app/modules/projects/application/project_service.py:201-208 | where the archive's instant is the expected stamp, the title update's commit follows the archive's in the history |
| ProjectUpdates.Waits | apps/api/app/modules/projects/infrastructure/repository.py:43-97 | a waiting call waits for an open call that is strictly nearer its end |
| ProjectUpdates.NoDeadlock | apps/api/app/modules/projects/application/project_service.py:81-112 | every reachable state has a schedule of statements and commits alone after which every call has returned |
| AccountIndependence.Independent | apps/api/app/modules/projects/infrastructure/repository.py:114-204 | any interleaving, cut down to one account's calls, is itself a run and ends with exactly that account's replies, rows, locks and history |
| AccountIndependence.Alone | apps/api/app/modules/projects/infrastructure/repository.py:114-204 | from empty tables an account sees what it would see if no other existed: its actions alone are a run that ends with exactly its calls, rows, locks and history |
| ProjectService.Database.ReserveCreate | apps/api/app/modules/projects/infrastructure/repository.py:35-60 | the reservation insert waits, finds the key taken, fails on a taken id, or reserves, leaving the state the machine's statement leaves |
| ProjectService.Database.Add | apps/api/app/modules/projects/infrastructure/repository.py:99-112 | the project insert waits, fails on a taken id, or writes the draft project |
| ProjectService.Database.CompleteCreateReservation | apps/api/app/modules/projects/infrastructure/repository.py:78-97 | the snapshot update waits, finds no reservation, or writes the snapshot |
| ProjectService.Database.Update | apps/api/app/modules/projects/infrastructure/repository.py:167-204 | the filtered update waits, matches no row, or writes the new version |
| ProjectService.Database.Commit | apps/api/app/modules/projects/infrastructure/repository.py:239-244 | a commit publishes the call's rows and one event, or fails its deferred check and leaves nothing |
| ProjectService.Database.Exit | apps/api/app/modules/projects/infrastructure/repository.py:225-237 | leaving without a commit undoes every uncommitted row of the call and nothing else |
| ProjectService.Database.Create | apps/api/app/modules/projects/application/project_service.py:70-131 | with arbitrary calls between its statements the whole is a run of the machine in which the call advances, is cancelled only while it has to wait, and ends with the reply returned; a refused call changes nothing |
| ProjectService.Database.UpdateTitle | apps/api/app/modules/projects/application/project_service.py:175-219 | the same for a title update |
| ProjectService.Database.ArchiveOrDelete | apps/api/app/modules/projects/application/project_service.py:221-272 | the same for archive and soft delete |
| ProjectService.CreateServed | apps/api/app/modules/projects/application/project_service.py:81-112 | a served create leaves a reachable state whose reservation carries the returned project's snapshot, or another payload after a conflict |
| ProjectService.CreateReplies | apps/api/app/modules/projects/application/project_service.py:70-131 | a create that returned gave the project committed under its key, with the stripped title and the type that were asked for, in the caller's account; made by this call, it has the fresh id, the caller as owner and the transaction's instant |
| ProjectService.UpdateReplies | apps/api/app/modules/projects/application/project_service.py:175-219 | a title update that returned has committed the stripped title that was asked for, and the new stamp, on the version it expected, and nothing else |
| ProjectService.RemovalReplies | apps/api/app/modules/projects/application/project_service.py:221-272 | an archive or deletion that returned has committed just that, for an owner or admin of the project's account |
| Requests.PreparedOp | apps/api/app/modules/projects/application/project_service.py:70-265 | what reaches a transaction is the operation asked for, field by field: an active member's, in the caller's account, by an owner or admin for archive and delete, with the stripped title and the expected stamp |
| Requests.RefusedExactly | apps/api/app/modules/projects/application/project_service.py:312-320 | permission is denied exactly to inactive members and to plain members who archive or delete; a call is invalid exactly for a title that is empty or longer than 255 once stripped, an unknown type, a blank key, or a stamp without timezone |
| Requests.SamePayload | apps/api/app/modules/projects/application/project_service.py:302-309 | two creates have one payload if and only if their types agree and their titles do once stripped |
| Projects.SnapshotRoundTrip | apps/api/app/modules/projects/infrastructure/repository.py:272-301 | reading a stored snapshot gives back the project it was taken from, deletion mark aside |
| Projects.PayloadInjective | apps/api/app/modules/projects/application/project_service.py:302-309 | the canonical JSON payload is injective in title and type under string escaping |
| Projects.PayloadText | apps/api/app/modules/projects/application/project_service.py:302-309 | the canonical payload, written out |
| Projects.Vocabularies | apps/api/app/modules/projects/domain/project.py:8-30 | the stored names of types and statuses |
| Projects.ValidateTitleIdempotent | apps/api/app/modules/projects/domain/project.py:88-96 | an accepted title, validated again, is accepted unchanged |
| Text.TrimIdempotent | apps/api/app/modules/projects/domain/project.py:91 | trimming leaves no space at either end and trimming again changes nothing |
| Text.TrimExactly | apps/api/app/modules/projects/domain/project.py:91 | trimming removes the spaces at both ends and nothing else |
| Json.ObjectRoundTrip | apps/api/app/modules/projects/application/project_service.py:303-308 | reading a printed object of strings gives back its members in order |
| Values.UuidRoundTrip | apps/api/app/modules/projects/infrastructure/repository.py:272-301 | reading a printed UUID gives it back |
| Values.PrintedPlaces | apps/api/app/modules/projects/infrastructure/repository.py:272-301 | where the dashes of a printed UUID stand |
| Values.TimestampRoundTrip | apps/api/app/modules/projects/infrastructure/repository.py:281-297 | reading a printed UTC timestamp gives it back |
| Values.PrintedMoment | apps/api/app/modules/projects/infrastructure/repository.py:281-297 | a printed timestamp, digit by digit |
| BootstrapProofs.OneAggregatePerSubject | apps/api/app/modules/identity/application/account_bootstrap.py:49-91 | whatever the ids and the interleaving, every committed profile was founded with its account and membership by one logged run, no two logged runs share a subject, at most one run per subject reports creation, and the invariant error is never raised |
| BootstrapProofs.AllOrNothing | apps/api/app/modules/identity/infrastructure/account_bootstrap.py:92-111 | a run's step publishes profile, account, active owner membership and its unique pair together, or no row at all |
| BootstrapProofs.EndsExactly | apps/api/app/modules/identity/application/account_bootstrap.py:49-91 | where each statement takes a run, by the committed rows: it ends at either read exactly when it finds memberships, writing nothing; loses the gate exactly to a committed profile; fails exactly on a taken account id, membership id or pair; and its commit returns the new owner membership alone |
| BootstrapProofs.WaitsExactly | apps/api/app/modules/identity/infrastructure/account_bootstrap.py:41-71 | a run waits exactly while another is inserting the subject, account id, membership id or pair that it needs next |
| BootstrapProofs.InterruptsExactly | apps/api/app/modules/identity/infrastructure/account_bootstrap.py:92-111 | a cancelled run is rolled back, and one whose reply is lost has committed all the same |
| BootstrapProofs.OverHoldsNothing | apps/api/app/modules/identity/infrastructure/account_bootstrap.py:92-111 | a run that is over holds no lock and has left no uncommitted row |
| BootstrapProofs.RecheckFinds | apps/api/app/modules/identity/application/account_bootstrap.py:58-68 | a run that lost the profile gate finds a membership, so the second read never fails |
| BootstrapProofs.NoDeadlock | apps/api/app/modules/identity/application/account_bootstrap.py:55-76 | every reachable state has a schedule of statements and commits alone after which every run has returned |
| BootstrapService.Database.CreateProfileIfAbsent | apps/api/app/modules/identity/infrastructure/account_bootstrap.py:41-48 | the profile insert waits for an in-flight holder, finds the profile, or creates it |
| BootstrapService.Database.AddAccount | apps/api/app/modules/identity/infrastructure/account_bootstrap.py:50-54 | the account insert waits, fails on a repeated id, or writes the account |
| BootstrapService.Database.AddOwnerMembership | apps/api/app/modules/identity/infrastructure/account_bootstrap.py:56-71 | the membership insert waits, fails on a taken id or pair, or writes the owner membership |
| BootstrapService.Database.Bootstrap | apps/api/app/modules/identity/application/account_bootstrap.py:49-91 | with anything happening between its statements the use case is a run of the machine in which it advances, is cancelled only while it has to wait, and ends with the outcome returned |
| BootstrapService.BootstrapServed | apps/api/app/modules/identity/application/account_bootstrap.py:75-91 | from a reachable state the use case never raises its invariant error, and if it reports creation no other run of the subject does |
| ContextProofs.ReachedInv | apps/api/migrations/versions/0004_context_sources.py:63-132 | in every reachable state a version has its source's account and project, a source its project's account, numbers are unique, a ready source has a ready version, a failed source a version still failed, and the pointer stands at the highest ready version |
| ContextTheorems.StepKept | apps/api/app/modules/context/infrastructure/repository.py:71-162 | no step changes a ready version or a deleted source, and a version is made ready or failed only under a source that is not deleted, whose status then says so |
| ContextTheorems.FrozenForever | apps/api/migrations/versions/0004_context_sources.py:147-173 | over every run ready versions and deleted sources never change again and the current version never steps back |
| ContextTheorems.CommitEffects | apps/api/app/modules/context/infrastructure/repository.py:39-162 | what each committing call does to the rows, field by field, and what it found: a live source of its tenant, a version not ready, a free id and number |
| ContextTheorems.EndsExactly | apps/api/app/modules/context/application/context_source_service.py:122-269 | where each statement takes a call, by the committed rows: it goes on exactly when its keys are free, its project is its account's, its source is live and its version there to mark; otherwise it is not found, or refused by the database, and rolled back; and it succeeds exactly by its commit |
| ContextTheorems.WaitsExactly | apps/api/app/modules/context/infrastructure/repository.py:39-162 | a call waits exactly while it would write a row, or take a key, that another call is writing |
| ContextTheorems.InterruptsExactly | apps/api/app/modules/context/application/context_source_service.py:122-269 | a cancelled call is rolled back, and one whose reply is lost has committed all the same |
| ContextTheorems.CurrentExactly | apps/api/app/modules/context/infrastructure/repository.py:164-185 | the current version is exactly a ready version of the live source that no ready one outnumbers, absent if there is none |
| ContextTheorems.CurrentIsCached | apps/api/app/modules/context/infrastructure/repository.py:164-185 | the current-version query has an answer if and only if it is what the pointer kept by maximum would answer |
| ContextTheorems.CurrentIsMonotone | apps/api/app/modules/context/application/context_source_service.py:158-198 | between two moments of a run the current number never falls, equal numbers mean the identical version, and it is absent if and only if the source was deleted |
| ContextTheorems.LowerCompletionChangesNothing | apps/api/app/modules/context/application/context_source_service.py:158-198 | completing a lower number leaves the current version as it is |
| ContextRace.DeletedExactly | apps/api/app/modules/context/infrastructure/repository.py:71-90 | over every run a live source ends deleted if and only if some action of the run commits its deletion |
| ContextRace.InsertsExactly | apps/api/app/modules/context/application/context_source_service.py:131-152 | past its check an unblocked version insert succeeds if and only if its id and number are free, whatever became of the source |
| ContextRace.PendingExactly | apps/api/app/modules/context/application/context_source_service.py:122-156 | whenever a create that passed its check under a live source commits, it commits a pending version, and its source is then deleted if and only if the deletion was committed in between |
| ContextRace.PendingUnderDeleted | apps/api/app/modules/context/application/context_source_service.py:122-156 | every live source has a run to a state in which it is deleted and the version not there yet, and a further run that inserts the version |
| ContextTheorems.NoDeadlock | apps/api/app/modules/context/application/context_source_service.py:166-193 | every reachable state has a schedule of statements and commits alone after which every call has returned |
| ContextIndependence.Independent | apps/api/app/modules/context/infrastructure/repository.py:58-185 | any interleaving, cut down to one account's calls and projects, is itself a run and ends with exactly that account's outcomes, rows, locks and current versions |
| ContextSlices.ReachedOrigins | apps/api/migrations/versions/0004_context_sources.py:121-126 | every committed source or version was created by a call of its own account, and a call past its source check found a source of its own account |
| ContextService.PreparedOp | apps/api/app/modules/context/application/context_source_service.py:83-269 | what reaches a transaction is the operation asked for, field by field: in the caller's account and the given project, a new source as plain text of the caller's, numbers at least one, ready content not empty |
| ContextService.RefusedExactly | apps/api/app/modules/context/domain/context_source.py:84-113 | each refusal before the transaction, exactly when the guards demand it: inactive member, type not offered, unknown type, number below one, ready version without content |
| ContextService.Database.AddSource | apps/api/app/modules/context/infrastructure/repository.py:39-56 | the source insert waits, fails on a taken id or a project of another account, or writes an uploaded source |
| ContextService.Database.AddVersion | apps/api/app/modules/context/infrastructure/repository.py:92-108 | the version insert waits, fails on a taken id, number or missing parent, or writes a pending version |
| ContextService.Database.Mark | apps/api/app/modules/context/infrastructure/repository.py:110-162 | the marking update waits, finds no version that is not ready, or writes the new version |
| ContextService.Database.SetStatus | apps/api/app/modules/context/infrastructure/repository.py:71-90 | the status update waits, finds no live source, or writes the new status |
| ContextService.Database.Transact | apps/api/app/modules/context/application/context_source_service.py:122-269 | with arbitrary calls between its statements each of the five transactions is a run of the machine in which the call advances, is cancelled only while it has to wait, and ends with the outcome returned |
| ContextService.Database.Serve | apps/api/app/modules/context/application/context_source_service.py:83-269 | a whole call is refused before its transaction without any effect, or is such a run |
| ContextService.ServedDid | apps/api/app/modules/context/application/context_source_service.py:83-269 | a command that succeeded has committed exactly what it asked for, row by row, at one moment of the run |
| ContextService.SuccessCommitted | apps/api/app/modules/context/application/context_source_service.py:122-269 | a call that succeeded in a run committed in it, at one action of its own |
| ContextService.Database.GetCurrentReadyVersion | apps/api/app/modules/context/infrastructure/repository.py:164-185 | the answer is absent if and only if there is no ready version of a live source, else one that no candidate outnumbers |
| ContextService.Database.GetCurrentVersion | apps/api/app/modules/context/application/context_source_service.py:271-292 | refused exactly to inactive members, not found exactly if the source was not live at the first read, and otherwise the current version at the moment of the last statement, other calls running in between |
| Cursor.CursorRoundTrip | apps/api/app/api/routers/projects.py:207-228 | reading a project's cursor gives back exactly its creation time and id |
| Cursor.CursorInjective | apps/api/app/api/routers/projects.py:207-213 | two keys have one cursor if and only if they are equal |
| Cursor.CursorText | apps/api/app/api/routers/projects.py:207-213 | the JSON text of a cursor, written out |
| Base64Url.PaddingRestored | apps/api/app/api/routers/projects.py:213-220 | stripping the padding of any byte string's encoding and adding `-len % 4` pads restores it |
| Base64Url.RoundTrip | apps/api/app/api/routers/projects.py:213-220 | reading an unpadded encoding, padded again, gives the bytes back |
| Base64Url.Alphabet | apps/api/app/api/routers/projects.py:213-220 | the alphabet is that of section 5 of RFC 4648 |
| Base64Url.TestVectors | apps/api/app/api/routers/projects.py:213-220 | the test vectors of section 10 of RFC 4648 |
| Utf8.RoundTrip | apps/api/app/api/routers/projects.py:208-220 | decoding an encoded text gives it back |
| Utf8.Samples | apps/api/app/api/routers/projects.py:208-220 | one character of each length, from section 7 of RFC 3629 |
| Sorting.OrderedUnique | apps/api/app/modules/projects/infrastructure/repository.py:156-165 | a set of rows has one strictly ordered enumeration |
| Pagination.OlderExactly | apps/api/app/modules/projects/infrastructure/repository.py:148-162 | a row comes after a cursor exactly if year, month, day, hour, minute, second and microsecond are lexicographically smaller, or equal and the id is smaller |
| Pagination.OrderedIsNewestFirst | apps/api/app/modules/projects/infrastructure/repository.py:161 | the list is sorted exactly if it is newest first in those terms |
| PaginationProofs.PageComplete | apps/api/app/api/routers/projects.py:121-128 | a live row after the cursor is on the page, or another page follows and the row comes after this page's last |
| PaginationProofs.CrawlAgrees | apps/api/app/modules/projects/infrastructure/repository.py:143-165 | with arbitrary changes between fetches no request is refused, rows come strictly newest first by calendar fields and then greater id, pages are full while more follow, no project comes twice, each is undeleted, of the account and as committed at its fetch, and by the last page every project live throughout has come |
| PaginationProofs.CrawlWhole | apps/api/app/api/routers/projects.py:113-138 | on an unchanging list of n rows the crawl returns exactly the undeleted projects of the account, newest first, in max(1, ceil(n / limit)) full pages |
| LivePages.CrawlWhileServing | apps/api/app/modules/projects/infrastructure/repository.py:143-165 | the same as of a crawl with changes holds of a crawl whose fetches meet the database at any successive states of the running service |
| LivePages.BrowserWhileServing | apps/web/src/features/projects/project-list.tsx:40-59 | the browser's list, its requests answered at successive states of the running service and some failing in between, shows exactly such a crawl's projects one by one: newest first, each once and, once no page follows, every project that stayed live |
| ProjectList.ProjectList.LoadMore | apps/web/src/features/projects/project-list.tsx:40-59 | a press without a cursor or while pending changes nothing; a failure changes only the failure shown; a page sets cursor and failure and appends exactly the entries whose id is not yet shown |
| ProjectList.UnknownInOrder | apps/web/src/features/projects/project-list.tsx:52-55 | the entries that a page adds keep the order of the page |
| ProjectList.MergeAppends | apps/web/src/features/projects/project-list.tsx:52-55 | merging drops nothing when no id comes twice |
| ProjectList.BrowserAgrees | apps/web/src/features/projects/project-list.tsx:52-57 | after any presses, some of which fail, the list shows exactly the rows of a crawl over the answered requests, one by one with id, title, type, status and stamp |
| ProjectList.BrowserShowsAll | apps/web/src/features/projects/project-list.tsx:52-57 | on an unchanging list, once enough requests are answered, it shows every undeleted project of the account and no other, newest first |
| CreateForm.CreateProjectAction | apps/web/src/features/projects/actions.ts:53-132 | field checks, key choice, access and request lead to the next state and the message that the specification gives |
| CreateForm.TurnExactly | apps/web/src/features/projects/actions.ts:57-132 | a refused submission keeps key and content and flags exactly its bad fields; an accepted one is sent exactly when an account is selected, under a fresh key if the content changed and else the kept or a fresh one, and keeps key and content unless it ends in a redirect |
| CreateForm.ScriptLengthExactly | apps/web/src/features/projects/actions.ts:62 | a text is as long as its characters and one more for each outside the basic plane |
| CreateForm.FingerprintInjective | apps/web/src/features/projects/actions.ts:77 | a fingerprint determines title and type |
| CreateForm.SessionFollows | apps/web/src/features/projects/actions.ts:77-84 | with fresh draws a session never returns to a dropped key and never sends one key with two contents |
| CreateForm.KeysAreNotReused | apps/web/src/features/projects/actions.ts:78-84 | over every run of any number of forms a key is never sent with two contents |
| CreateForm.StretchUsesOneKey | apps/web/src/features/projects/actions.ts:78-98 | consecutive submissions with unchanged content use one key, whatever the state they start in |
| EndToEnd.NoConflict | apps/api/app/modules/projects/application/project_service.py:89-91 | when creates come from the forms no create is refused as a conflict |
| EndToEnd.OneProjectPerStretch | apps/web/src/features/projects/actions.ts:112-130 | a stretch of submissions with unchanged content creates at most one project in an account |
| Resp.EncodeCommand | apps/api/app/infrastructure/queue/readiness.py:10-15 | the joined pieces are the header and the bulk strings of the encoded parts |
| Resp.CommandRoundTrip | apps/api/app/infrastructure/queue/readiness.py:10-15 | a reader recovers the parts, line ends included, and leaves what follows untouched |
| Resp.StreamRoundTrip | apps/api/app/infrastructure/queue/readiness.py:10-15 | a concatenation of commands is split back into the same commands |
| Resp.Sample | apps/api/app/infrastructure/queue/readiness.py:10-15 | the bytes of the protocol's own sample command |
| Digits.DecimalRoundTrip | apps/api/app/infrastructure/queue/readiness.py:12-14 | a printed length reads back as itself |
| Migration.Migrate | scripts/db/migrate.py:54-121 | succeeds if and only if the lock was free and everything went well; on every path the lock is as it was found, and without it the schema is untouched |
| Migration.ExitCode | scripts/db/migrate.py:124-135 | is 0 if and only if the migration succeeded |
| Migration.MutualExclusion | scripts/db/migrate.py:72-114 | over any interleaving and failures at most one runner with a living connection is between acquire and release, a runner in between has the lock if and only if its connection lives, acquisitions are bracketed by releases of the same session, an exited runner holds nothing, and exit code 0 means that exactly the head was read under the runner's own lock |
| Migration.UnlockSucceeds | scripts/db/migrate.py:101-112 | unlocking over a living connection always succeeds |
| Migration.OnlyAcquirersRelease | scripts/db/migrate.py:83-104 | every release in the log follows the acquisition of the same session |
| Migration.ExclusionIsTheConnections | scripts/db/migrate.py:73-112 | in every reachable state, while a runner is between acquire and release others can come to stand there too, without any action of it, if and only if its connection was dropped |
| Migration.UpgradesOverlapExactly | scripts/db/migrate.py:87-112 | while a runner's upgrade goes on, waited for or not, another runner can upgrade if and only if the first one's session no longer has the lock |
| Migration.CancelledUpgradeGoesOn | scripts/db/migrate.py:88-109 | from every state in which a runner waits for its upgrade over a living connection, cancelling the wait and unlocking leads to such an overlap over a living connection |
| Migration.LoneRun | scripts/db/migrate.py:72-135 | from every state with a free lock, a runner alone that meets no failure exits 0 if its upgrade leaves exactly its head, else 1, and the lock is free again |
| Migration.BusyRun | scripts/db/migrate.py:82-134 | from every state in which the lock is taken, a runner exits 1 and leaves lock and schema alone |
| Trace.ContextVariable.BindTraceContext | packages/observability/src/aria_observability/context.py:99-105 | leaving a block restores the exact previous context, however it is left |
| Trace.ContextVariable.EnrichTraceContext | packages/observability/src/aria_observability/context.py:63-96 | names the given ids canonically, or raises and changes nothing |
| Trace.EnrichedIds | packages/observability/src/aria_observability/context.py:74-96 | each named id becomes the same UUID in canonical spelling and the others stay; refused exactly without a context, without ids, or for a value that is no UUID |
| Trace.ContextVariable.Run | packages/observability/src/aria_observability/context.py:63-105 | any nesting of blocks, enrichments and exceptions ends in the state that the block semantics gives |
| Trace.EnrichRuns | packages/observability/src/aria_observability/context.py:63-96 | in the block semantics an enrichment changes the context for the rest of the block, or raises and skips the rest |
| Trace.BindRuns | packages/observability/src/aria_observability/context.py:99-105 | a bound block leaves the context as it found it, and skips the rest exactly when it raises |
| Trace.RaiseAndTryRun | packages/observability/src/aria_observability/context.py:99-105 | raising skips the rest; a guarded block keeps its context and the rest goes on |
| Trace.BlockKeepsTrace | packages/observability/src/aria_observability/context.py:63-105 | at every point of a block its request and correlation ids are those it was entered with |
| Trace.BlockKeepsUnnamed | packages/observability/src/aria_observability/context.py:81-94 | an id that no enrichment of a block names is as the block was entered |
| Trace.BindIsInvisible | packages/observability/src/aria_observability/context.py:99-105 | a bind block that does not raise can be removed from any program without changing the rest |
| Trace.MessageRoundTrip | packages/observability/src/aria_observability/context.py:155-176 | a job survives its message if and only if its correlation id is a canonical UUID |
| Trace.RequestJobSurvives | packages/observability/src/aria_observability/context.py:108-153 | every job made in a request resolved from HTTP, however enriched, survives its message and carries on the request's correlation id |
| Trace.ResolvedExactly | packages/observability/src/aria_observability/context.py:108-115 | each id of a resolved request is the same UUID as in its own header, or the drawn one exactly if that holds none |
| Trace.JobExactly | packages/observability/src/aria_observability/context.py:133-153 | a job is made exactly of five good values inside a request, each kept in its own place and spelled canonically, and its trace context has the same ids |
| Trace.MessageExactly | packages/observability/src/aria_observability/context.py:168-176 | the six entries of a message |
| DatabaseUrl.NormalizeIdempotent | apps/api/app/infrastructure/db/readiness.py:11-21 | normalising twice equals normalising once, and no `?sslmode=` or `&sslmode=` remains |
| DatabaseUrl.NoKeyLeft | apps/api/app/infrastructure/db/readiness.py:11-21 | nowhere in the result do `?sslmode=` or `&sslmode=` stand |
| DatabaseUrl.RewriteIsLocal | apps/api/app/infrastructure/db/readiness.py:21 | around the keys original and result consist of the same pieces in the same order |
| DatabaseUrl.SchemeIsLocal | apps/api/app/infrastructure/db/readiness.py:12-17 | a known scheme becomes the asyncpg scheme and the rest is only rewritten |
| DatabaseUrl.OtherSchemeIsLocal | apps/api/app/infrastructure/db/readiness.py:18-21 | any other URL is only rewritten and does not gain a known scheme |
| DatabaseUrl.NormalizedText | apps/api/app/infrastructure/db/readiness.py:11-21 | the three schemes become `postgresql+asyncpg://` and each key `ssl=`, the pieces between them staying |
| DatabaseUrl.OtherText | apps/api/app/infrastructure/db/readiness.py:11-21 | any other URL has its keys replaced and nothing else |
| MembershipReaders.DiscoveryAgrees | apps/api/app/modules/identity/application/membership_resolution.py:48-65 | discovery lists an account with a role if and only if selecting it resolves to an active membership with that role |
| MembershipReaders.DenialAgrees | apps/api/app/modules/identity/infrastructure/membership_resolution.py:24-49 | selection is denied as invited or suspended if and only if the pair's one row says so, and never fails on a table that meets the schema |
| MembershipReaders.ResolvedExactly | apps/api/app/modules/identity/application/membership_resolution.py:48-65 | selection resolves to a membership exactly if it is the pair's own row, read as it stands, and active |
| MembershipReaders.DiscoverySorted | apps/api/app/modules/identity/infrastructure/account_discovery.py:18-40 | the list is strictly sorted by account, so without duplicates |
| MembershipReaders.ContextAgrees | apps/api/app/modules/identity/application/account_bootstrap.py:105-125 | discovery lists an account with a role if and only if the bootstrap context holds such a membership |
| MembershipReaders.BootstrapReadsTheSame | apps/api/app/modules/identity/infrastructure/account_bootstrap.py:32-39 | the bootstrap transaction's context and the ordered reader hold the same memberships, and one is denied when the other is empty |
| MembershipReaders.ContextOrdered | apps/api/app/modules/identity/infrastructure/account_bootstrap.py:32-39 | the context lists memberships by the moment of joining, then by id |

## Left out

- PostgreSQL, SQLAlchemy and asyncpg themselves: a statement is atomic here; one that waits at its second unique index holds
  nothing meanwhile, and a foreign-key check reads what is committed.
- Failures the model does not name (lost connections, statement timeouts, foreign keys to profiles and accounts, a commit
  that fails): any of them is a cancelled call that rolls back.
- Physical deletes and cascades, row-level security and privileges, and statuses that no service writes.
- The migrations' DDL as statements: keys, foreign keys, vocabularies and triggers appear as conditions and effects of the
  statements that meet them. The ready-version trigger is not needed: no statement of the services reaches a ready row.
- Values.UuidRoundTrip: the reader does not take decimal digits outside ASCII, which Python's `int` accepts in a UUID.
- Trace.EnrichedIds: a value with such digits counts as no UUID.
- Migration.Migrate: a single execution is not cancelled there; cancellation is part of the interleaved runners.
- Values.TimestampRoundTrip: instants are UTC with the spelling `isoformat` gives them; other offsets are not read.
- Json.ObjectRoundTrip: the reader takes flat objects of strings, the only documents printed here; the stored snapshot is
  modelled as its members.
- BootstrapProofs.OneAggregatePerSubject: contexts are sets there; the order by joining time is in `MembershipReaders`.
- ProjectList: React's own state machinery; two presses are never in flight together, as `isPending` ensures.
- FastAPI wiring, error envelopes, JWT verification, logging, timings and analytics, settings, health probes and sockets.
- Repository scripts other than the migration runner, and all rendering.
