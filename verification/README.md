# Verified model of the publishing client and its neighbours

These Dafny files model the parts of the artifact site where a mistake would be hard to see: the
crash-recoverable publication of the command-line client, the lock and journal under it, the
resumable chunked upload, the archive decoder, the ZIP extraction, and six smaller state machines and
text transformations of the server and the browser. What is proved holds over every run, every
interleaving and every input of the model; nothing is bounded.

`dafny verify dfyconfig.toml` checks everything.

## How it is built

| file | what it models |
|---|---|
| `Publishing.dfy` | `uploadWithRecovery` as a state machine: journal on disk, journal in memory, program counter, outstanding request, requests of dead clients, server table, sessions and publications |
| `PublishingSafety.dfy`, `PublishingTheorems.dfy` | the invariant, one lemma for each action, and the theorems over runs |
| `PublishingLegacy.dfy` | the same machine on a server without operation records |
| `PublishingUnsettled.dfy`, `PublishingProgress.dfy` | runs that exist: a double publication for each promise that is missing, and a run that succeeds |
| `Publisher.dfy` | the client as a class with the program's loops and branches; each of its steps is a step of the machine |
| `OperationLease.dfy` | the server's operation table: leases, replay, retention |
| `OperationRefinement.dfy` | a simulation: a row of that table moves as the machine's operation does, effects included |
| `OperationTable.dfy` | the whole table, with a row for every key, one clock and one sweep, in the machine's place |
| `RecoveryLock.dfy` | the lock directory with process birth identity and nonces, and the fenced journal file |
| `Retry.dfy` | `withRetry`: repetitions, waits and the identity cookie |
| `ChunkUpload.dfy` | `uploadArchiveChunks` against the staging store |
| `FrameWriter.dfy` | the archive decoder's output stream and its 64-bit limits |
| `RelativePath.dfy`, `ZipExtraction.dfy` | path canonicalisation and streaming extraction |
| `UriComponent.dfy`, `Json.dfy`, `ReceiptCookie.dfy` | the bounded cookie of edit receipts, with the printing and parsing it depends on |
| `RemoteLifecycle.dfy` | the remote MCP connection |
| `VersionFeed.dfy` | the version feed of a viewer page |
| `ShareSettings.dfy` | the share-settings patch |
| `ShareGuests.dfy` | how the server stores a guest list, and when a saved draft stays saved |
| `IndentBlock.dfy` | Tab and Shift+Tab in the source editor |
| `ShellQuoting.dfy` | the shell lines of the connection guide |

State machines have an `Enabled`/`Apply` pair and a `Run`; code that changes an object step by step is a
class beside them, whose fields are always the end of a recorded run, so that the theorems about runs are
theorems about the object. Nondeterminism of the environment (what the network, the disk or the
unzipper does) is a parameter of the step.

## Assumptions

- SHA-256 is injective, and the published files do not change while a run of the client lasts; a later run
  has the same files, which the journal's fingerprint enforces.
- `alone`: no client starts on a journal while another one runs; the lock does not guarantee it, as
  `RecoveryLock.OneReclaimerRemovesALiveLock` shows. `drained`: a dead client's requests are applied or lost before the
  next run starts, and a file PUT whose reply was lost is over before it is replayed. `leased`: no worker outlives its
  lease while a client runs. That each of the three is needed, and that together they are enough, is
  `PublishingUnsettled.AtMostOnceIffSettledOrLegacy`. A worker that outlives the seven-day window of its row is
  covered without any assumption.
- A client whose lock was taken by another ends at its next save (`RecoveryLock.DisplacedIsFenced`).
- A server does not change between having operation records and not having them, and nobody deletes a journal.
- A commit on an expired session has no effect; the structured 413 and the 429 say that nothing happened.
- In the lock, the owner check and the rename or removal after it are one step.
- Normalization Form C is idempotent, and a normal text stays normal when backslashes become slashes and when a leading
  "./" is dropped.
- In the archive decoder, the output takes a certain number of bytes, and once a write has failed all later ones fail;
  the program does not look at the result of writing the tag (line 56 of `scripts/archive/reader.c`), so without this
  a lost tag could go unnoticed.
- The unzipper gives chunks to file entries that it has reported, and none after the last one of an entry
  (`ZipExtraction.Orderly`); the operating system never gives two open files the same handle; a write that reports no
  error has written everything.

## What was found

- `PublishingUnsettled.PublishesTwice`: on a server with operation records, a commit that lands between the status query
  and the session query of a run is missed, and the manifest is published twice. It may come from a dead client's
  request, from a worker that outlived its lease, or from a client that lost its lock to this run.
- `OperationLease.StaleWorkerTakesEffect`: a worker can publish after the window of its row has ended, even after the
  same key was refused for that reason (the refusal rolls its sweep back), as long as no claim that commits has swept
  the table; at most one artifact is published nevertheless (`OperationTable.LeaseTablePublishesAtMostOnce`).
- `RecoveryLock.OneReclaimerRemovesALiveLock`: one reclaimer is enough to remove the lock of a live process; it
  does not take two overlapping ones. `RecoveryLock.ReclaimRemovesLiveIffTakenSince` says exactly when,
  `RecoveryLock.GuardedReclaimSparesLiveLocks` names the check that would prevent it. The nonces still
  protect the journal (`RecoveryLock.NoLostUpdate`), but not the publication (`PublishingUnsettled.PublishesTwice`).
- `VersionFeed.AnOfferVanishes`: the note timer of an applied version removes the offer of a later version that the
  frame did not accept.
- `IndentBlock.EmptyFirstLineIsDoubled`: Shift+Tab at offset 0 of a text that starts with a line feed doubles it.
- `ShareGuests.ResolvedAddressIsSentAgain`: an invited address that somebody has verified is stored as the account, so
  the same draft still differs from the saved share. The page drops its draft after a save, so the list is sent
  again only when the same address is entered again.

## Model

| member | source | states |
|---|---|---|
| PublishingTheorems.PublishesAtMostOnce | cli/src/publish.ts:104-187 | over every run of crashes, lost replies, expired sessions, retired records and reruns, one journal publishes at most one artifact, and it is the whole manifest |
| PublishingTheorems.KeepInv | cli/src/publish.ts:104-187 | every action of client, network and server keeps the invariant behind the theorems |
| PublishingTheorems.RunKeepsInv | cli/src/publish.ts:104-187 | so does every run |
| PublishingTheorems.PublishedGenerationIsPersisted | cli/src/publish.ts:153-182 | whatever was published under `commit:g` has the generation of the journal on disk |
| PublishingTheorems.CommitIsComplete | cli/src/publish.ts:153-182 | when a commit is about to be sent, its session holds exactly the manifest or is closed, also after a resume or a restart of the generation |
| PublishingTheorems.NoSessionNothingDone | cli/src/publish.ts:153-163 | a journal without a session lists no finished file, on disk and in memory |
| PublishingTheorems.ClearMeansUnpublished | cli/src/publish.ts:141-182 | between the status queries and the commit, the chunked route after an inline attempt included, nothing is published and nothing that publishes is on its way |
| PublishingTheorems.NoRequestAfterPublication | cli/src/publish.ts:126-140 | once anything is published, no later client sends a create, open or commit request or a file |
| PublishingTheorems.ResultIsFinal | cli/src/publish.ts:126-140 | once the journal on disk holds a result, no later run publishes, and every run that returns reports that result |
| PublishingTheorems.StaysOnCourse | cli/src/publish.ts:112-140 | while the records and the artifact exist, no step of a later run leads anywhere but to the published artifact, and none of the client's steps changes the server |
| PublishingTheorems.RecoveryFindsTheWinner | cli/src/publish.ts:112-140 | a later run, whatever its queries are answered and whatever the server and the network do in between, takes at most six answered steps, which are status queries and saves, and when it ends has returned and stored the published artifact; nothing is published again, and by itself it changes nothing on the server |
| PublishingTheorems.AnsweredRunReturns | cli/src/publish.ts:112-140 | the same from any point of a run already under way |
| PublishingTheorems.AnswersLeaveTheServer | cli/src/publish.ts:112-140 | no run of queries and saves changes the server |
| PublishingTheorems.AnsweredStep | cli/src/publish.ts:112-140 | every answer brings such a client nearer to the result |
| PublishingSafety.KeepRow | src/lib/publish-operation.ts:29-139 | any move of an operation's row without effect keeps the invariant: lapse, renewal, release, the end of its window, the sweep |
| PublishingLegacy.LegacyPublishesAtMostOnce | cli/src/publish.ts:126-143 | without operation records, with dead requests arriving arbitrarily late and clients losing their lock while they run: at most one artifact, at most one request that can still publish, none after a publication, and each flag on disk before its request is sent |
| PublishingLegacy.KeepLegacyInv | cli/src/publish.ts:126-179 | the write-ahead invariant behind it |
| PublishingUnsettled.PublishesTwice | cli/src/publish.ts:129-156 | a run in which the manifest is published twice, whichever of the three promises is missing |
| PublishingUnsettled.AtMostOnceIffSettledOrLegacy | cli/src/publish.ts:126-163 | publication is at most once in every run exactly when all three promises hold, or the server keeps no records |
| PublishingProgress.UntroubledRunPublishes | cli/src/publish.ts:164-184 | a first run whose requests are answered publishes exactly the manifest and returns it |
| Publisher.Publisher.UploadWithRecovery | cli/src/publish.ts:104-187 | whatever one call does is a run of the machine; a call that returns has stored the result, and the one published artifact is the manifest |
| Publisher.Publisher.Attempt | cli/src/publish.ts:108-187 | the journal, what an earlier run has published, and only then a publication, in the program's order |
| Publisher.Publisher.AskEarlier | cli/src/publish.ts:111-140 | package recovery and both status queries: a result found is stored and returned, else the client is past them |
| Publisher.Publisher.PublishNew | cli/src/publish.ts:139-184 | a cached result that cannot be verified stops the run; else inline or chunked publication |
| Publisher.Publisher.Recovered | cli/src/publish.ts:126-140 | one status query and what each answer leads to |
| Publisher.Publisher.RecoverPackage | cli/src/publish.ts:112-124 | the package job of an earlier commit |
| Publisher.Publisher.WaitForPackage | cli/src/client.ts:128-139 | polling a package job; being interrupted after any number of polls |
| Publisher.Publisher.PublishInline | cli/src/publish.ts:141-151 | the one-shot request, and the chunked route after its structured rejection only |
| Publisher.Publisher.Chunked | cli/src/publish.ts:153-184 | resume or open a session, upload, commit |
| Publisher.Publisher.ResumeSession | cli/src/publish.ts:153-163 | finished files are kept that the session holds with the local hash and size; an unknown session starts the next generation from nothing |
| Publisher.Publisher.UploadFiles | cli/src/publish.ts:169-178 | the file loop ends ready to commit |
| Publisher.Publisher.UploadFile | cli/src/publish.ts:170-177 | a file that the journal does not list is sent, listed and saved |
| Publisher.Publisher.CommitSession | cli/src/publish.ts:179-184 | the commit, flagged on disk before it is sent |
| Publisher.Publisher.Post | cli/src/client.ts:373-384 | one keyed POST with everything the network may do to it |
| OperationLease.KeyTakesEffectAtMostOnce | src/lib/publish-operation.ts:81-139 | over every interleaving of claims, slow workers, releases and time, one key takes effect at most once, for the content that claimed it first |
| OperationLease.StatusTellsTheTruth | src/lib/publish-operation.ts:153-164 | within the retention window, `completed` or `gone` is answered exactly when the key took effect, as its artifact exists or not |
| OperationLease.ReplayIsTheEffect | src/lib/publish-operation.ts:101-119 | a replayed answer is that of the transaction that took effect, for the same content |
| OperationLease.SupersededLeaseIsFenced | src/lib/publish-operation.ts:48-53 | a lease that was followed by another never commits |
| OperationLease.OneLiveLease | src/lib/publish-operation.ts:101-119 | a lease is granted only when none is alive and nothing took effect |
| OperationLease.StaleWorkerTakesEffect | src/lib/publish-operation.ts:48-53 | a run in which a worker takes effect after the window of its row, and after the key was refused for that |
| OperationRefinement.TableStepIsMachineRun | src/lib/publish-operation.ts:29-139 | every step of the table is zero or one step of the machine on that key, after which they agree again; the machine takes effect exactly when the table does |
| OperationTable.KeepValid | src/lib/publish-operation.ts:101-119 | every key that was claimed has one row, and all rows have one clock |
| OperationTable.ClaimSweepsEveryRow | src/lib/publish-operation.ts:101-119 | a claim that commits turns every other row past its window into a tombstone; one that is refused changes no other row |
| OperationTable.MovesAreMachineRun | src/lib/publish-operation.ts:29-139 | whatever happens to all rows at once is a run of the machine, after which every row agrees again |
| OperationTable.JointRunIsMachineRun | src/lib/publish-operation.ts:29-139 | every run of the whole table and the world around it is a run of the machine |
| OperationTable.LeaseTablePublishesAtMostOnce | src/lib/publish-operation.ts:48-139 | with the lease table in the machine's place, for all keys, at most one artifact is published and every key takes effect at most once, workers that outlive their row's window included |
| OperationRefinement.StatusesAgree | src/lib/application/operation-status.ts:4-16 | the status route answers what the machine's status function says, deleted artifacts included |
| RecoveryLock.KeepInv | cli/src/recovery.ts:39-81 | every step of every contender keeps the lock invariant |
| RecoveryLock.DisplacedIsFenced | cli/src/recovery.ts:66-81 | a displaced contender never completes another save and never removes the new owner's lock, overlapping reclaims included |
| RecoveryLock.NoLostUpdate | cli/src/recovery.ts:71-81 | a save that completes replaces exactly the journal its contender last loaded or saved |
| RecoveryLock.FingerprintIsFixed | cli/src/recovery.ts:71-75 | the files and parameters of a journal are fixed by its first save |
| RecoveryLock.ReclaimRemovesLiveIffTakenSince | cli/src/recovery.ts:39-65 | a reclaim removes the lock of a live process exactly when, in the run so far, that lock was taken after the reclaimer had read it, by a process that has not ended since |
| RecoveryLock.GuardedReclaimSparesLiveLocks | cli/src/recovery.ts:44-62 | while the lock still names the owner that was judged, removing it takes no live lock away |
| RecoveryLock.UndisturbedReclaimsSpareLiveLocks | cli/src/recovery.ts:14-65 | when no acquisition falls into a reclaim, no lock whose recorded process lives is removed by another |
| RecoveryLock.OneReclaimerRemovesALiveLock | cli/src/recovery.ts:39-65 | a run in which a single reclaimer is about to remove a live lock |
| Retry.Client.WithRetry | cli/src/client.ts:407-429 | the attempts made, the answer returned, the identity kept, and every wait between one second and one minute |
| Retry.AttemptsAreDetermined | cli/src/client.ts:407-429 | what is met determines how many attempts are made |
| Retry.UnsafeTakesEffectAtMostOnce | cli/src/client.ts:411-423 | a method that is not safe is sent at most once in a way that can take effect |
| Retry.IdentityIsKept | cli/src/client.ts:417-420 | an identity once received is never forgotten and always comes from an answer |
| ChunkUpload.Uploader.UploadArchiveChunks | cli/src/client.ts:276-309 | staged parts stay a prefix of the file and are never taken back; a completed run has sealed exactly the file; an undisturbed run completes exactly when the rest of the file is within the server's limits |
| ChunkUpload.Uploader.SendRest | cli/src/client.ts:291-306 | the loop that continues after the staged prefix; it ends |
| ChunkUpload.Uploader.VerifyStaged | cli/src/client.ts:284-290 | the staged parts are accepted exactly when they are a prefix of the file (all of it, if sealed) |
| ChunkUpload.Uploader.Send | cli/src/client.ts:295-304 | one chunk, tried again after a conflict; accepted means stored, and final means sealed with the file's bytes |
| ChunkUpload.Uploader.Replayed | cli/src/client.ts:407-429 | one PUT with the replays of a safe request, whose lost copies may land later |
| ChunkUpload.AnsweredRunSeals | cli/src/client.ts:291-306 | any interrupted upload, however cut, is completed by one answered run exactly when the rest is within the limits; the empty file and the unsealed complete upload by one empty final part |
| ChunkUpload.ServesNext | src/lib/mcp/files.ts:58-82 | the next part is stored exactly when parts and bytes stay within the limits |
| ChunkUpload.ServeKeepsGood | src/lib/mcp/files.ts:120-153 | the staging store stays a prefix of the file under every PUT of the client |
| ChunkUpload.ServeIsIdempotent | src/lib/mcp/files.ts:58-82 | a repeated PUT changes nothing and is answered the same way |
| ChunkUpload.SealedIsFinal | src/lib/mcp/files.ts:120-153 | nothing changes a sealed upload |
| FrameWriter.Decoder.Extract | scripts/archive/reader.c:34-69 | exit 0 means that the output decodes to exactly the entries; on every exit the output is a prefix of a well-formed stream within the limits; with room in 64 bits, exit 0 exactly on readable archives whose whole stream the output takes and flushes |
| FrameWriter.Decoder.PutEntry | scripts/archive/reader.c:48-65 | one accepted entry: its frame, or the beginning of it |
| FrameWriter.Decoder.PutData | scripts/archive/reader.c:58-64 | data is copied until the declared size, never beyond it |
| FrameWriter.Decoder.Number | scripts/archive/reader.c:16-19 | the low bytes of a number, most significant first |
| FrameWriter.NumberIsLosslessIffItFits | scripts/archive/reader.c:16-19 | a number survives exactly when it fits its field |
| FrameWriter.DecodeEncodeAll | scripts/archive/reader.c:55-63 | the stream reads back as the frames that were written |
| FrameWriter.NextIsAccepted | scripts/archive/reader.c:45-54 | no check refuses an entry of a readable archive |
| RelativePath.UnchangedIffCanonical | cli/src/archive.ts:91-97 | a name passes unchanged exactly when it is canonical |
| RelativePath.AcceptedIsCanonical | cli/src/archive.ts:91-97 | every accepted name is canonical and a fixpoint |
| RelativePath.StaysInside | cli/src/archive.ts:125-125 | joined under the root, an accepted name leads strictly below it, and different names to different places |
| RelativePath.JoinSplit | cli/src/archive.ts:95-95 | splitting at slashes loses nothing |
| ZipExtraction.JudgedSoundly | cli/src/archive.ts:116-122 | an extracted file has a canonical path without any skipped name, and a name that climbs is always refused |
| ZipExtraction.KeepEnter | cli/src/archive.ts:114-136 | finding an entry keeps the accounts in order, whatever happened before |
| ZipExtraction.KeepReceive | cli/src/archive.ts:128-134 | so does a chunk for any open file: the total is the sum of the sizes, and no more is written than the limits allow |
| ZipExtraction.Extraction.ExtractZip | cli/src/archive.ts:108-147 | success exactly when no push throws, no callback is wrong after those before it, every file entry has its last chunk and there is an entry page; then the tree has one file for each file entry that the callbacks named, in order, with the bytes of its chunks, no handle open; failure: every handle closed and the directory gone; within the limits either way |
| ZipExtraction.Extraction.OnEntry | cli/src/archive.ts:114-136 | the callback for an entry is the step of the accounts |
| ZipExtraction.Extraction.OnData | cli/src/archive.ts:128-134 | the callback for a chunk is the step of the accounts |
| ZipExtraction.Extraction.Abandon | cli/src/archive.ts:146-146 | the error path closes every handle |
| ZipExtraction.NextTells | cli/src/archive.ts:114-136 | after every callback, something has failed exactly when a callback so far was wrong, and until then the accounts are those of the callbacks |
| ZipExtraction.AllClosedIffAllFinished | cli/src/archive.ts:143-143 | when nothing failed, no handle is open exactly when every file entry has had its last chunk |
| ZipExtraction.CleanBooksAreComplete | cli/src/archive.ts:140-145 | when moreover no handle is open, the tree is what the callbacks told |
| ZipExtraction.CompleteTreePassesPreflight | cli/src/archive.ts:99-105 | all that the final check can still find is a missing entry page |
| UriComponent.DecodeEncode | src/lib/http.ts:48-48 | decoding an encoded value gives the value back |
| UriComponent.EncodedIsPlain | src/lib/anonymous-access.ts:21-21 | an encoded value holds no separator of a cookie header |
| Json.ParseStringify | src/lib/anonymous-access.ts:13-21 | what was printed parses back |
| ReceiptCookie.AnonymousEditCookie | src/lib/anonymous-access.ts:18-22 | a write keeps the longest suffix of the other receipts and the new one that has at most 8 entries and 3000 encoded characters |
| ReceiptCookie.LongestSuffixIsUnique | src/lib/anonymous-access.ts:19-20 | which is one list only |
| ReceiptCookie.ReadBack | src/lib/anonymous-access.ts:9-17 | reading the cookie back among any others gives exactly that list if and only if its slugs are well-formed |
| ReceiptCookie.CookieHoldsTheLatest | src/lib/anonymous-access.ts:9-22 | over every run of requests, printing and parsing included, the cookie holds the end of the list of latest receipts: only the oldest are ever lost |
| ReceiptCookie.NextRequestReads | src/lib/anonymous-access.ts:9-22 | the next request reads exactly what was kept |
| ReceiptCookie.CookieLookup | src/lib/anonymous-access.ts:23-26 | over every such run the slugs stay distinct, and looking one up gives its newest token or nothing |
| ReceiptCookie.WrittenIsReadable | src/lib/anonymous-access.ts:18-26 | a receipt that fits on its own can be used at once; if all is lost, it did not fit |
| RemoteLifecycle.KeepInv | cli/src/mcp.ts:52-95 | every uninterrupted piece of `connect` and `close` keeps the invariant |
| RemoteLifecycle.NoClientIsLost | cli/src/mcp.ts:61-86 | in every interleaving at most one handshake is in flight, and every client is retained, closed or in the hands of its attempt |
| RemoteLifecycle.NothingAfterClose | cli/src/mcp.ts:88-94 | once a `close` has finished, nothing is retained or running, every client is closed, and every `connect` is refused, for ever |
| RemoteLifecycle.InternalStepsEnd | cli/src/mcp.ts:76-94 | every step that is not a new call brings the end nearer |
| RemoteLifecycle.SomeStepIsPossible | cli/src/mcp.ts:76-94 | until all is over some step can be taken, so closing comes to an end |
| RemoteLifecycle.Remote.Connect | cli/src/mcp.ts:61-74 | a caller gets a client that is not closed, waits for the only attempt, or is refused because of a `close`; a new attempt starts only when none runs |
| RemoteLifecycle.Remote.Serve | cli/src/mcp.ts:52-95 | every piece that can run is run as a step of the machine; after any calls of `connect` and `close` with any course of their handshakes, in any order, at most one handshake is in flight, no client is lost, and a finished `close` leaves none |
| VersionFeed.KeepInv | src/components/site-version-watcher.tsx:62-176 | every handler keeps the invariant |
| VersionFeed.WatchedIffLookedAt | src/components/site-version-watcher.tsx:86-176 | in every run: stopped or hidden, no stream, poll or watchdog; visible, a poll, an armed watchdog or a stream that has proved it flows, and never a poll beside such a stream |
| VersionFeed.AnnouncedOnce | src/components/site-version-watcher.tsx:67-83 | a version reported consecutively by both transports is announced once; every reported version is announced; the last announced is the last reported |
| VersionFeed.ReadersKeepTheirOffer | src/components/site-version-watcher.tsx:70-83 | the timer never takes a reader's offer away |
| VersionFeed.OfferVanishesIffTimerRuns | src/components/site-version-watcher.tsx:73-80 | in every run, some continuation without a refresh or a newer version takes an unapplied offer away exactly when the timer of an earlier version runs |
| VersionFeed.OfferStays | src/components/site-version-watcher.tsx:70-83 | without a running timer, what is shown stays until a refresh or a newer version |
| VersionFeed.AnOfferVanishes | src/components/site-version-watcher.tsx:73-80 | a run in which it does |
| VersionFeed.Watcher.Live | src/components/site-version-watcher.tsx:62-176 | whatever happens to a page, in whatever order, is handled as the step of the machine it is, and the transports and announcements are as the theorems say |
| VersionFeed.Watcher.Announce | src/components/site-version-watcher.tsx:70-83 | the arriving version is the last one announced, announced again only if another came between, and then shown |
| VersionFeed.Watcher.OnVisibility | src/components/site-version-watcher.tsx:150-162 | nothing runs behind a hidden page, and a poll or an armed watchdog does as soon as it is visible |
| ShareSettings.ShareSettingsPatch | src/components/share-model.ts:460-474 | applied, the patch shows what the draft asks for, and an expiry that was not changed keeps its instant; it is empty exactly when the share already shows the draft; the guests sent are those of the draft |
| ShareGuests.SavingConverges | src/components/share-model.ts:460-474 | saving a draft and comparing again at the same instant leaves nothing to send exactly when no guest list was to be sent, or each guest is listed once and is stored under its own key |
| ShareGuests.StoredIffComesBack | src/lib/application/share-item.ts:78-114 | the stored list has the keys of the sent one exactly under that condition on accounts, existing rows and the list |
| ShareGuests.UnsteadyKeyIsLost | src/lib/application/share-item.ts:84-99 | no guest at all is stored under the key of one that fails the condition |
| ShareGuests.StoredKeys | src/lib/application/share-item.ts:104-113 | the stored list has each key of the resolved guests once, and no other |
| ShareGuests.WithoutAccountsSavingConverges | src/lib/application/share-item.ts:78-114 | where nobody has an account, every list without repetitions comes back |
| ShareSettings.LiteralServerConverges | src/components/share-model.ts:460-474 | a server that stores the list as sent always converges |
| ShareGuests.ResolvedAddressIsSentAgain | src/lib/application/share-item.ts:84-99 | the failing case through the server's own resolution: the same draft would be sent again and change nothing |
| ShareGuests.SavingDoesWhatTheDraftSays | src/components/share-model.ts:460-474 | after saving, the share shows what the draft asks for and is otherwise as before; guests that were not asked for are left alone |
| ShareSettings.ScaleRoundTrip | src/components/share-model.ts:83-105 | a choice just sent is shown as itself, and later never as a longer one |
| ShareSettings.SameKeysIffSamePeople | src/components/share-model.ts:468-469 | the sorted-and-joined comparison is equality of people with multiplicities, when no key contains a line break |
| ShareSettings.LineBreakConfuses | src/components/share-model.ts:468-469 | with a line break in a key it is not |
| ShareSettings.RemoveUndoesAdd | src/components/share-model.ts:212-221 | removing a person that was added gives the list back |
| ShareSettings.AddKeepsDistinct | src/components/share-model.ts:212-216 | no person is listed twice |
| IndentBlock.DedentIndent | src/components/editor.tsx:250-251 | dedenting an indented block gives the block back |
| IndentBlock.TailIsKeptUnlessAtEmptyFirstLine | src/components/editor.tsx:249-253 | the text before and after stays and the new end marks the unchanged tail, except exactly for Shift+Tab at offset 0 of a text that starts with a line feed |
| IndentBlock.EmptyFirstLineIsDoubled | src/components/editor.tsx:249-252 | what happens in that case |
| IndentBlock.ShiftTabUndoesTab | src/components/editor.tsx:244-255 | Tab over several lines, then Shift+Tab on the selection it leaves, restores the text and its end |
| IndentBlock.LineStartIsRight | src/components/editor.tsx:249-249 | where the first covered line starts |
| IndentBlock.Editor.OnTab | src/components/editor.tsx:242-261 | the handler writes that edit to the selected draft and no other, and the selection to restore |
| ShellQuoting.QuotedIsOneWord | src/lib/agent-connection-guide.ts:3-3 | a quoted value is read as one word, equal to the value |
| ShellQuoting.LoginWords | src/lib/agent-connection-guide.ts:8-8 | the words of the `login` line |
| ShellQuoting.VerifyWords | src/lib/agent-connection-guide.ts:10-10 | the words of the `verify` line |
| ShellQuoting.PublishWords | src/lib/agent-connection-guide.ts:11-11 | the words of the `publish` line |

## Left out

- HTTP, files, process probes and the archive, unzip and MCP libraries: each is the small contract the code relies on.
- Publisher.Publisher.WaitForPackage: polling for ever is modelled as being interrupted after any finite number of polls, because a method must end.
- PublishingTheorems.RecoveryFindsTheWinner: says what every answered run comes to; that the network answers at all is not claimed.
- Publisher.Publisher.UploadWithRecovery: while a call runs, no other client takes its lock; what such clients do is in the machine (`Overtake`), not in the class.
- RecoveryLock.DisplacedIsFenced: the owner check and the rename after it are one step; a process suspended between the two is not covered, as the program itself cannot exclude it.
- FrameWriter.Decoder.Extract: the signed counter of one entry's bytes is unbounded, so a declared size within one block of 2^63 is not covered; the format name and filter tests are one flag of the archive.
- ZipExtraction.Extraction.ExtractZip: closing a handle on the error path does not fail, and a short write that reports no error is taken as complete.
- RelativePath.SafeRelativePath: lone surrogates and non-Latin case folding are not modelled; they do not take part in any comparison.
- Json.ParseStringify: numbers, literals and objects are parsed by their grammar (section 2 of RFC 8259), but only strings and arrays are printed, so only they make the round trip.
- ReceiptCookie.Receipts: the cookie header is already split at ';' and trimmed; escapes of lone surrogates make the parser refuse; the cookie's attributes and the request path's pattern are left out.
- ShareGuests.Saved: of the server's refusals only those of the guest list are modelled; a list that names an unknown account or a malformed address is refused as a whole.
- ShareSettings.SameKeysIffSamePeople: no condition is given that is both sufficient and necessary; the guard against line breaks is what a caller can check, and `LineBreakConfuses` shows that it is needed.
- ShareSettings.SamePeople: characters are ordered by code point, where the program orders UTF-16 units; only that the order is total matters.
- ChunkUpload.Store: an archive's own byte limit, the project's and the file's are one bound; parts above the advertised chunk size, which the client never sends, are not refused.
- RemoteLifecycle.Apply: an abort makes a handshake fail sooner, which the model leaves to the environment.
- VersionFeed.Apply: a stream that was proved and is reconnecting still counts as proved, as in the program.
- ShellQuoting.Tokens: characters with a special meaning outside quotes make the reader refuse instead of being expanded; the lines have none there. The lines `token` and `more` are left out.
- Anonymous publication, which has no journal; argument parsing, rendering, translations and analytics.
- `reusableQuickShare`, `visualSwitchPlan`, visibility labels and other functions of a few branches, which would only add easy members.
- `src/lib/admin.ts`: its guarantees rest on database functions that are not part of this model.
