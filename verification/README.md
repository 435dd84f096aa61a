# Relay: a verified model of its remote file layer

Relay lets Emacs edit files on another machine through a small server. An Elisp client and a Rust server guard
every save with a revision token, so that a save replaces only what its author had seen. This project models
the parts where that can go wrong and proves what they promise, for every input, every interleaving and every
run, or, where the code promises more than it keeps, proves the exact condition under which it does.

`dafny verify dfyconfig.toml` checks the whole project.

## What is modelled

**The revision protocol** (`FileSystem`, `Os`, `Revision`, `Utf8`, `ReadRevision`, `WriteRevision`,
`ConditionalWrite`, `Linearize`). A filesystem of paths, inodes and change stamps. Every system call is one
atomic method of the class `Kernel`, and before each of them every other process may do anything
(`Kernel.Interfere`). Two constants describe the surroundings: `alone`, nobody else changes files, which is how
the mutation lock looks from inside when all mutators share it; and `private`, others leave this process's
temporary names alone. The one assumption about the kernel is that a change stamp never repeats: whatever
changes an inode, or binds or unbinds one of its names, stamps it anew. A stable read and a conditional write
are the source's own loops over those calls. Nothing depends on the digest being collision-free; `Kernel.hash`
is arbitrary, and the server's is `Sha256.Digest`.

**SHA-256** (`Sha256`, `Digest`). FIPS 180-4 as a specification on bits and words, and the server's padding
loop, schedule and register loop proved against it.

**Asynchronous saves** (`SaveState`, `SaveBuffer`, `SaveControl`, `SaveHeld`, `SaveStore`, `SaveOrigin`,
`SaveQueue`, `SaveDefects`, `StoreRefinement`, `JointRuns`). The buffer-local state is the class `SaveBuffer.Buffer`; each method is proved to
compute the function of `SaveState` that specifies it, and the properties are proved of those functions: over one buffer,
and over a system of any number of buffers and one store whose replies may be lost, duplicated or late and
whose writes may land long after their sender gave up. `StoreRefinement` ties this store to the revision
protocol by a simulation: a reachable store corresponds to whatever files there are at the start, and each step of
the protocol is matched by steps of the system: anything others do to the files by outside writes and removals, the
publishing call of a conditional write by one compare-and-swap, exactly if nobody touched the path since the second
check, and a stable read under any interference by one read. `JointRuns` puts these steps together: files and system
run side by side, and every joint run is a run of the system, whose store holds what the files hold
(`JointRuns.JointRunsAreRuns`), and every call of the conditional write takes such steps
(`JointRuns.ConditionalWriteRunsJointly`); so no update is lost on the server's files (`JointRuns.ReplacedFileWasHeld`), and
answers come from them (`JointRuns.AnswersComeFromTheFile`). It takes from the kernel, besides the change stamps, that
a link count of one means one name.

**Synchronous saves** (`SyncSave`). The older path of relay-conflict.el against such a store.

**The wire** (`Framing`, `Routing`, `RoutingCode`, `Listing`). Length-prefixed frames cut anyhow; the table of
pending requests and the deferred callback queue; batched directory listings.

**Reads and caches** (`TailRead`, `DirCache`, `ContentCache`, `ContentCacheCode`). Chunked tail reads, the
epoch-guarded directory cache, and the LRU of prefetched contents.

## Where the code falls short of its documentation

Each is a theorem here, with the exact condition under which the code does keep the promise.

- A Restore Base that is refused, when the file then fetched happens to hold LOCAL's bytes, is taken for a
  success: BASE's bytes are recorded under the revision of a version that holds LOCAL
  (`SaveDefects.RestoreBaseCanMisadopt` is such a run). Whenever that version is still the file's and the client had
  never held it, its next save overwrites it (`SaveDefects.MisadoptionLosesAnUpdate`). BASE stays sound exactly when no such step happens
  (`SaveStore.BaseSoundIff`; the step is `SaveHeld.Misadopts`, which can be read off the reply). The synchronous
  path has no such step.
- A Save As refused because its target exists, or whose reply is lost, records the target's contents as REMOTE of
  the original file, and Keep Remote installs them in the original buffer (`SaveDefects.SaveAsConflictAdoptsTarget`).
  Of such reads, exactly those whose write was aimed at the buffer's own file record a version of that file
  (`SaveOrigin.RemoteIsOwnExactly`); over every run without a rename, a buffer has recorded versions of its own file
  only, if and only if no refused or lost Save As was read back into it (`SaveOrigin.OwnExactly`).
- When dispatching a frame signals an error the filter keeps the whole accumulator, so every later chunk
  dispatches the earlier frames again and nothing behind the failing one is reached
  (`Framing.SignalsRedeliver`); without such a frame, and only then, each frame is dispatched exactly once
  (`Framing.FilterIsFaithful`).
- A transport failure calls a stream's final callback directly, ahead of chunks still queued
  (`Routing.FailureOvertakes`). Chunks precede finals, however a run goes on while the transport lives, if and only
  if no failure finds a chunk of a pending stream in the queue (`Routing.ChunksFirstExactly`).
- A callback that signals ends its drain, and the callbacks behind it never run. None is skipped if and only if no
  unblocked drain meets a signal before the last callback it took (`Routing.QueueIsFifo`).
- A chunked tail read is spliced when a file is rewritten in place between two requests, keeping its inode and
  its length past the offset (`TailRead.RewrittenFileIsSpliced`). A delivery that is not re-anchored is one stretch of
  the file as the last request met it if and only if every range read before still holds there what was read (`TailRead.SplicedExactly`).
- A cached listing goes stale for good, with nothing on its way, although its directory is watched:
  - when the change came before the watch, which the first listing asks for only after its read
    (`DirCache.FirstListingGap`);
  - when the entry that changed is watched itself, as every sub-directory that was listed is: the server then reports
    the entry's own change only and says nothing of the directory it is in (server/src/main.rs:123-130,
    `DirCache.WatchedEntryMisleads`; `DirCache.EntryIsToldExactly` is the exact condition for one report);
  - when a directory above is moved that is watched neither itself nor through the one it is in
    (`DirCache.UnreportedMoveMisleads`);
  - when the directory was removed and made anew: its path is still in the server's table, so it is not watched again
    (server/src/control.rs:44-52, `DirCache.DeadWatchStays`, `DirCache.RemadeDirectoryMisleads`).

  While no watch is given up these are all the ways. A listing can be relied on as long as it is cached if and only
  if its directory was under a live watch when it was asked for, no entry of it is or gets watched, and every
  directory above is under a live watch or an entry of one that is (`DirCache.WatchedFirstExactly`). Even then it is
  right only in what a watch reports: the times of a sub-directory change without any event when something changes
  inside it (`DirCache.SilentChangeIsUnheard`).
- `readdir_stream` opens a directory and then looks its path up, without following a link, for the modification
  time that the reconnect test compares. The test passes for stale or wrong names when the path is a symbolic link,
  whose own time says nothing of the directory (`Listing.LinkedPathMisleads`); when the path was missing at the look-up
  and still is, since two empty keys are equal (`Listing.MissingPathMisleads`); and when the path named another
  directory by then (`Listing.ReboundPathMisleads`); and when what is at the path later is another directory or link
  with the very same time (`Listing.RemadePathMisleads`). As long as the path is not made anew, it vouches for a non-empty
  listing if and only if the path was no link at the look-up and either named a directory with exactly the listed names
  or that directory has changed since, so that the test never passes (`Listing.VouchesExactly`).
- An error inside a callback is turned into a terminal state only while its operation is still active. A confirmation
  releases the operation before it installs text, so an error in between leaves the buffer saving with nothing active
  (`SaveControl.FaultEndsExactly`); the next save then starts afresh if and only if the buffer is modified and has a
  BASE (`SaveControl.StuckSaveRestartsExactly`).
- The guard of the synchronous save against a missing BASE drops its result, so a write without any precondition token
  goes out (relay-conflict.el:306-309). It is refused or lost (`SyncSave.SyncBuffer.SaveInternal`), and the only caller
  checks for BASE first (relay-conflict.el:632).
- A content-cache put whose directory's limit is used up by files in directories below evicts the entry it has
  just inserted (`ContentCache.PutSurvivesExactly`).
- A conditional write can publish and still answer with an error (`Linearize.PublishesAndStillErrs`). Given a
  publication it does if and only if the temporary name of a creation could not be removed, or the read-back failed
  or found other bytes (`ConditionalWrite.Server.PublishAndVerify`); never when no other process interferes and no
  call fails (`ConditionalWrite.Server.ConditionalWrite`).
- Outside the shared lock a foreign write between the second check and the rename is replaced unseen
  (`Linearize.ForeignWriteCanBeLost`); a save replaces what it expects if and only if the path is left alone in that
  gap (`Linearize.ReplacesExactlyWhatItExpects`).
- A token in a write request is ignored if and only if the request also says that the file is missing, or the token
  is well formed, no state is given, and the request asks to append or to create (`Revisions.TokenIgnoredExactly`).

## Model

| member | source | states |
|---|---|---|
| ConditionalWrite.Server.ConditionalWrite | server/src/revisions/write.rs:143-217 | Whatever other processes do between any two system calls: at most one publication, of a kind `Legit` allows; success names an inode whose content at that instant is exactly the requested bytes; before publishing only temporary names are written; no temporary name is left if its removal succeeds; too large or non-UTF-8 content touches nothing; undisturbed, an error means that nothing was published, and the call is one atomic compare-and-swap that otherwise changes nothing |
| ConditionalWrite.Server.PublishDraft | server/src/revisions/write.rs:180-205 | The second check and the publishing call: nothing is published after a stale check, and the draft was complete before that check ended |
| ConditionalWrite.Server.RenameOver | server/src/revisions/write.rs:183-186 | A present-state save publishes by rename, recording the state its check ended in |
| ConditionalWrite.Server.CreateByLink | server/src/revisions/write.rs:187-204 | A missing-state save publishes only where nothing is, against everybody; removes its temporary name; a collision is answered with what is there |
| ConditionalWrite.Server.CollisionError | server/src/revisions/write.rs:195-202 | What a collision reports is true at the instant it is reported: a revision in it is of an inode as it is, and of the path's unless that was touched since the call |
| ConditionalWrite.Server.NewPendingTemp | server/src/revisions/write.rs:26-39 | A fresh file under a name nothing had, named by no other path, after at most 100 names |
| ConditionalWrite.Server.RemoveDraft | server/src/revisions/write.rs:46-52 | After a successful removal the temporary name is gone; an unsuccessful one changes nothing |
| ConditionalWrite.Server.VerifyPublished | server/src/revisions/write.rs:207-216 | Success exactly for content read back equal to the requested bytes |
| ConditionalWrite.Server.PublishAndVerify | server/src/revisions/write.rs:180-216 | Given a publication, the answer is an error if and only if removing a creation's temporary name failed, or the read-back failed or found other bytes; never an error after a publication when undisturbed |
| ConditionalWrite.QuietSave | server/src/revisions/write.rs:180-216 | Undisturbed, the second check agrees with the first, the draft is installed under the path with everything else unchanged, and reading back finds it |
| ConditionalWrite.RenameIsLegit | server/src/revisions/write.rs:180-186 | A rename after a passed check is a legitimate publication whatever happened in between |
| ConditionalWrite.LinkIsLegit | server/src/revisions/write.rs:187-194 | So is a link; it replaces nothing |
| Linearize.ReplacesExactlyWhatItExpects | server/src/revisions/mod.rs:22-41 | A save replaces exactly the revision it expects if and only if nothing touched the path between its second check and its rename; under the shared lock always |
| Linearize.AtMostOnePublishes | server/src/revisions/mod.rs:22-41 | Among any number of saves of a path with the same token, at most one publishes |
| Linearize.AtMostOneReplaces | server/src/revisions/write.rs:180-185 | Without the lock too: at most one of them replaces that revision |
| Linearize.RevisionsNeverRecur | server/src/revisions/types.rs:74-91 | A path that left a revision never has it again |
| Linearize.PublicationRetires | server/src/revisions/write.rs:182-205 | After a publication no earlier token names the path's content |
| Linearize.SavesChain | server/src/revisions/mod.rs:22-41 | Of two consecutive undisturbed saves the second expects what the first left |
| Linearize.PublishesAndStillErrs | server/src/revisions/write.rs:180-213 | From every state about to publish: a legitimate publication after which foreign bytes in the file, or a temporary name that cannot be removed, make the answer an error |
| Linearize.ForeignWriteCanBeLost | server/src/revisions/write.rs:180-185 | Outside the lock a foreign write between the second check and the rename is replaced although nobody expected it, whatever it wrote |
| StoreRefinement.ConditionalWriteRefinesServeWrite | server/src/revisions/mod.rs:32-41 | The abstract store of the save system is implemented: a write takes effect exactly when the store's compare-and-swap does, under an identity never issued before, and every other file is as it was |
| StoreRefinement.PublicationRefinesServeWrite | server/src/revisions/write.rs:180-216 | Under any interference: the publishing call of a save is the store's compare-and-swap at that instant if and only if nothing touched the path since the second check; a creation's always is |
| StoreRefinement.SaveStepSimulates | server/src/revisions/mod.rs:32-41 | Serving a client's request with a conditional write is the system's serving step |
| StoreRefinement.PublicationSimulates | server/src/revisions/write.rs:180-205 | So is the publishing call of a save that others disturb, if they left its path alone since the second check |
| StoreRefinement.ForeignStepRefinesOutside | server/src/revisions/mod.rs:20-30 | Anything others do to the files is matched by outside writes and removals of the store, and every token issued keeps its meaning |
| StoreRefinement.StartRefinesInit | server/src/revisions/mod.rs:20-30 | Whatever files there are at the start, a reachable store corresponds to them |
| JointRuns.JointRunsAreRuns | server/src/revisions/mod.rs:20-41 | Whatever files there are at the start, whatever others do to them, however clients save and the network behaves: at every point the store of the system holds exactly what the files hold, under the names issued, and is one that the system reaches without a misadopted Restore Base |
| JointRuns.ConditionalWriteRunsJointly | server/src/revisions/write.rs:143-217 | Whatever others do during it, the call that serves a client's request extends every joint run that has come to its start: by foreign steps and its publication if it published with the path left alone since the second check or where nothing was, else by a foreign step |
| JointRuns.ReplacedFileWasHeld | lisp/relay-save.el:285-602 | End to end, at every write of every such run: the path was free, or what it held, bytes and revision, is a pair that the client whose save it is had held |
| JointRuns.AnswersComeFromTheFile | server/src/revisions/write.rs:207-216 | In every such run a read is answered with the file's bytes and revision, and a save is confirmed, with the file's revision, if and only if the file still holds the bytes saved |
| StoreRefinement.StableReadRefinesServeRead | server/src/revisions/read.rs:11-59 | Whatever others do during a stable read, its answer is what the store answers when it returns, if and only if the path still names the inode it opened; it does whenever the revision is older than the call |
| StoreRefinement.ReadIsServedExactly | server/src/revisions/read.rs:11-53 | The same of the result of any finished read |
| WriteRevision.ConflictForExisting | server/src/revisions/write.rs:74-117 | When a check passes the path is in the expected state at the instant the check ends; when it refuses, the refusal is true then: a `changed` one names another revision than the expected, of the path's own inode unless that was touched since; undisturbed it decides exactly |
| WriteRevision.MissingAppearanceConflict | server/src/revisions/write.rs:119-141 | What appeared is described truthfully, with the revision of the inode the path names unless that was touched since |
| WriteRevision.CheckIsMatches | server/src/revisions/write.rs:74-117 | The cascade of checks passes exactly when the path is missing, or holds exactly the expected revision |
| WriteRevision.PreserveMetadata | server/src/revisions/write.rs:54-72 | Ownership and mode change nothing but the draft's inode |
| WriteRevision.WriteAll | server/src/revisions/write.rs:173-174 | Partial writes, others acting in between, add up to exactly the bytes |
| WriteRevision.Fill | server/src/revisions/write.rs:172-176 | The filled draft holds exactly the bytes and is named by its temporary name only |
| ReadRevision.ReadWithRevision | server/src/revisions/read.rs:11-53 | With arbitrary writes between partial reads, a successful read is one inode's whole content with size, digest and metadata of one instant, and the path named that inode when it was opened; the path still names it if its stamp predates the call; undisturbed it finds exactly what is there; it gives up only after three changes |
| ReadRevision.ReadStable | server/src/revisions/read.rs:20-50 | One attempt: equal samples mean nothing changed between them |
| ReadRevision.ReadToEnd | server/src/revisions/read.rs:28-33 | Pieces read at different instants are the content, unless the inode changed |
| ReadRevision.EqualSamples | server/src/revisions/types.rs:335-347 | Equal metadata at two instants means the same inode, content and metadata at every instant in between |
| ReadRevision.OpenChecked | server/src/revisions/types.rs:320-333 | Opens only what the final-type check admits |
| FileSystem.OldStampMeansUnchanged | server/src/revisions/types.rs:335-347 | An inode whose stamp is older than an instant has not changed, nor lost or gained a name, since |
| FileSystem.EvolvesOn | server/src/revisions/read.rs:11-53 | What others may do composes over any number of steps |
| Revisions.FromValueExactly | server/src/revisions/types.rs:126-176 | Parsing accepts exactly the objects carrying all twelve fields of a valid token, and yields that token |
| Revisions.RoundTrip | server/src/revisions/types.rs:109-176 | A token survives the wire exactly when it is valid and fits its widths |
| Revisions.IssuedTokensReturn | server/src/revisions/types.rs:74-124 | Every token the server issues comes back as itself |
| Revisions.TokenIgnoredExactly | server/src/fs_handlers.rs:114-258 | A write carrying a token is refused or checked against exactly that token, unless it also says the file is missing, or carries a well-formed token and no state and asks to append or to create; and what then happens |
| Revisions.RevisionNamesNode | server/src/revisions/types.rs:74-107 | A token identifies its inode and stamp, and is valid |
| Sha256Proofs.DigestIsFips180 | server/src/revisions/types.rs:215-289 | For messages under 2^61 bytes the loops compute the digest of FIPS 180-4, which is unique |
| Sha256Proofs.PadIsPadded | server/src/revisions/types.rs:230-237 | The byte loop pads as section 5.1.1 pads bits |
| Sha256Proofs.PadInjective | server/src/revisions/types.rs:230-237 | Different messages pad differently |
| Sha256Proofs.DigestIsLowerHex | server/src/revisions/types.rs:288-288 | The digest is 64 lowercase hex digits, as a valid token requires |
| Sha256.Sha256 | server/src/revisions/types.rs:215-289 | The block loop computes the digest function |
| Sha256.PadMessage | server/src/revisions/types.rs:230-237 | The padding loop stops with the least number of zero bytes |
| Sha256.ExpandWords | server/src/revisions/types.rs:244-255 | The in-place schedule is the one of section 6.2.2 |
| Sha256.RunRounds | server/src/revisions/types.rs:256-277 | The rotating registers run the 64 rounds of section 6.2.2 |
| SaveStore.NoLostUpdate | lisp/relay-save.el:285-602 | Over every run of any number of buffers with replies lost or late: a save creates its file or replaces a version whose revision its client had held; without a misadopted Restore Base, that very version, bytes included |
| SaveStore.BaseSound | lisp/relay-save.el:251-355 | An unmodified buffer always shows BASE; without a misadopted Restore Base, BASE is a pair the server held together or the empty missing state |
| SaveStore.BaseSoundIff | lisp/relay-save.el:404-437 | A delivered reply leaves BASE sound if and only if it is not a misadopted Restore Base |
| SaveStore.StepKeepsInv | lisp/relay-save.el:285-602 | Every step of the system, server, network or client, keeps its invariant |
| SaveStore.RunKeepsReal | lisp/relay-save.el:285-602 | Everything a buffer ever held is real along such a run |
| SaveDefects.RestoreBaseCanMisadopt | lisp/relay-save.el:404-437 | A reachable run that ends saved, unmodified, with BASE's bytes under another version's revision |
| SaveDefects.MisadoptionLosesAnUpdate | lisp/relay-save.el:310-325 | From every reachable misadoption of a current version that its client had never held: the next save, whatever its text, replaces that version |
| SaveOrigin.OwnExactly | lisp/relay-save.el:146-149 | In every run without a rename a buffer has recorded versions of its own file only, if and only if no refused or lost Save As was read back into it |
| SaveOrigin.RemoteIsOwnExactly | lisp/relay-save.el:357-437 | A REMOTE recorded after a refused or lost write is a version of the buffer's file if and only if the write was aimed at it |
| SaveDefects.SaveAsConflictAdoptsTarget | lisp/relay-save.el:563-635 | From any conflict: a refused Save As makes another file's content this buffer's REMOTE, and Keep Remote adopts it |
| SaveControl.CommandKeepsGood | lisp/relay-save.el:767-825 | Every command keeps: active exactly when saving, queued only with active, an unmodified buffer shows BASE |
| SaveControl.ReplyKeepsGood | lisp/relay-save.el:357-457 | So does every callback |
| SaveControl.FaultKeepsGood | lisp/relay-save.el:264-283 | So does an error raised before the callback takes effect |
| SaveControl.FaultEndsExactly | lisp/relay-save.el:251-309 | An error midway is turned into a good terminal state if and only if the callback had not released its operation yet; otherwise nothing happens |
| SaveControl.StuckSaveRestartsExactly | lisp/relay-save.el:800-825 | From the state that leaves: the next save sends one write that expects BASE's revision, if and only if the buffer is modified and has a BASE; otherwise it does nothing, again |
| SaveControl.StaleReplyChangesNothing | lisp/relay-save.el:229-262 | A callback of a superseded generation leaves the save state unchanged |
| SaveControl.NonSuccessKeepsText | lisp/relay-save.el:251-262 | A reply that does not confirm the save keeps text and BASE; it ends the operation, empties the queue and marks the buffer modified, or, when a read has to follow, changes nothing but the requests made |
| SaveHeld.ReplyRecords | lisp/relay-save.el:285-437 | Whatever a callback records as BASE or REMOTE was held, fetched or confirmed, but for the misadopted Restore Base |
| SaveHeld.CommandRecords | lisp/relay-save.el:563-635 | A command records nothing that was not held |
| SaveHeld.ReplyWithin | lisp/relay-save.el:285-437 | Every request sent from a callback expects a revision already held |
| SaveHeld.CommandWithin | lisp/relay-save.el:477-635 | So does every request sent from a command |
| SaveQueue.CoalescingRefinesQueue | lisp/relay-save.el:459-491 | In any run of confirmed ordinary saves the writes sent are a subsequence of the requests in order, each expects the revision the one before returned, and the last confirmed bytes are the last requested |
| SaveQueue.StepCoalesces | lisp/relay-save.el:459-491 | The newest request is the queued one if any, else the active one |
| SaveBuffer.Buffer.FinishOperation | lisp/relay-save.el:285-355 | Computes the confirmation function, branch by branch |
| SaveBuffer.Buffer.FinishNonsuccess | lisp/relay-save.el:251-262 | Computes the non-success function |
| SaveBuffer.Buffer.CallbackSignalled | lisp/relay-save.el:264-276 | Computes the terminal state of a failed callback |
| SaveBuffer.Buffer.DispatchOperation | lisp/relay-save.el:459-475 | Takes a new generation, becomes active, sends one conditional write |
| SaveBuffer.Buffer.QueueOrDispatchOperation | lisp/relay-save.el:477-491 | Coalesces or dispatches |
| SaveBuffer.Buffer.ReplyToWrite | lisp/relay-save.el:439-457 | Computes the reaction to a write reply |
| SaveBuffer.Buffer.ReplyToReconcile | lisp/relay-save.el:363-402 | Computes the reaction to the read after a lost reply |
| SaveBuffer.Buffer.ReplyToConflictRead | lisp/relay-save.el:404-437 | Computes the reaction to the read after a refusal |
| SaveBuffer.Buffer.ReplyToInspect | lisp/relay-save.el:505-540 | Computes the reaction to an inspection |
| SaveBuffer.Buffer.ReplyToMergeVerify | lisp/relay-save.el:738-765 | Publishes a merge only for an unchanged buffer and an unchanged REMOTE |
| SaveBuffer.Buffer.ReplyToMergeWrite | lisp/relay-save.el:704-736 | Computes the reaction to a merge's write reply |
| SaveBuffer.Buffer.FinishMerge | lisp/relay-save.el:662-702 | Computes a confirmed merge |
| SaveBuffer.Buffer.RefuseMerge | lisp/relay-save.el:637-660 | Computes a refused merge |
| SaveBuffer.Buffer.Reply | lisp/relay-save.el:278-283 | Any reply to any stage computes the reply function and keeps the control invariant |
| SaveBuffer.Buffer.ResolveReadyConflict | lisp/relay-save.el:604-635 | Computes each conflict choice |
| SaveBuffer.Buffer.InspectUnknownSave | lisp/relay-save.el:505-540 | Starts an inspection without writing |
| SaveBuffer.Buffer.ApplyMergeAsync | lisp/relay-save.el:767-798 | Starts a merge's publication |
| SaveBuffer.Buffer.SaveBufferAsync | lisp/relay-save.el:800-825 | The save command in every status |
| SyncSave.SyncBuffer.SaveInternal | lisp/relay-conflict.el:284-374 | Exactly one write is sent, of LOCAL, expecting BASE's revision or, in an explicit retry of the same BASE and LOCAL, one proved to hold BASE's bytes, or, when no BASE could be established, nothing, which the server refuses; it is never repeated; BASE advances exactly on a confirmed save; every outcome is the one its reply and the one read made after it call for; nothing is replaced that this client had not held |
| SyncSave.SyncBuffer.Reconcile | lisp/relay-conflict.el:335-359 | After a lost reply one read decides, and a retry is offered only for a REMOTE with BASE's bytes |
| SyncSave.SyncBuffer.Save | lisp/relay-conflict.el:376-393 | Every unresolved outcome retains LOCAL for the next save |
| SyncSave.SyncBuffer.Resolve | lisp/relay-conflict.el:578-628 | Every choice works against the REMOTE the user was shown; BASE, text and flag are kept unless the choice is confirmed |
| SyncSave.SyncBuffer.ApplyMerge | lisp/relay-conflict.el:512-545 | A merge is written only over the REMOTE that was merged and only from the LOCAL that was merged |
| SyncSave.SyncBuffer.AutoRevert | lisp/relay-conflict.el:413-423 | Only a buffer showing BASE is reverted |
| SyncSave.Store.Serve | server/src/revisions/mod.rs:32-41 | The store's compare-and-swap replaces only what was held |
| Framing.FilterIsFaithful | lisp/relay-core.el:278-310 | For every stream and every cut: exactly the stream's frames, once and in order, and exactly the undelivered suffix kept, if and only if no dispatch signals; an oversized header stops at the same frame for every cut |
| Framing.SignalsRedeliver | lisp/relay-core.el:306-310 | After a signal every later chunk dispatches the same frames again |
| Framing.PayloadsArrive | lisp/relay-core.el:268-310 | Payloads within the limit, cut anyhow, are dispatched exactly and in order |
| Framing.EncodedDeframes | server/src/main.rs:55-59 | Deframing undoes framing |
| Framing.ScanOn | lisp/relay-core.el:287-310 | Scanning can stop anywhere and go on with what was left |
| Framing.HeadersAgree | server/src/main.rs:56-166 | Both ends write the same four header bytes and read them alike |
| Framing.Connection.Filter | lisp/relay-core.el:278-310 | The offset loop computes one filter step |
| Framing.RequestsArrive | server/src/main.rs:160-175 | Requests within the limit reach the server whole and in order |
| Framing.ReadFrames | server/src/main.rs:160-175 | The reader loop takes exactly the complete frames |
| Framing.WriteFrames | server/src/main.rs:55-61 | The writer loop frames every payload in order |
| Routing.RunKeepsLedger | lisp/relay-core.el:312-523 | In every run each asynchronous request is in exactly one place: pending, cancelled, or its final call queued, run, abandoned, refused or on a timer |
| Routing.FinalRunsAtMostOnce | lisp/relay-core.el:345-523 | The final callback of a request runs at most once, never while pending or after cancellation |
| Routing.QueueIsFifo | lisp/relay-core.el:216-242 | Callbacks leave the queue in arrival order, no chunk after its final; none is skipped if and only if no unblocked drain meets a signal before the last callback it took |
| Routing.ChunksFirstExactly | lisp/relay-core.el:337-398 | At every point of a run, however it goes on while the transport lives, no chunk runs after its stream's final call, if and only if no failure finds a chunk of a pending stream in the queue |
| Routing.FailureOvertakes | lisp/relay-core.el:378-398 | After one failure of one request the final call comes last if and only if no chunk of it was queued |
| Routing.BlockedMeansQuiet | lisp/relay-core.el:198-226 | Every queued callback that any run starts is started at an instant when no synchronous request waits |
| RoutingCode.Channel.Dispatch | lisp/relay-core.el:312-354 | Routes by the shape of the table entry |
| RoutingCode.Channel.DrainCallbackQueue | lisp/relay-core.el:216-226 | Runs the reversed queue up to a thunk that signals |
| RoutingCode.Channel.EnqueueCallback | lisp/relay-core.el:235-242 | Queues, or at the limit drops the callback and the connection |
| RoutingCode.Channel.FailPending | lisp/relay-core.el:378-398 | Releases every pending request |
| RoutingCode.Channel.TimeoutRequest | lisp/relay-core.el:513-523 | Releases a request that is still pending |
| RoutingCode.Channel.CancelRequest | lisp/relay-core.el:495-511 | Forgets a request |
| RoutingCode.Channel.HasBlockedWaiter | lisp/relay-core.el:198-203 | Finds a blocked synchronous request exactly when there is one |
| TailRead.ChunksAreOneFile | lisp/relay-core.el:646-759 | While files only grow: complete is exactly the bytes to the last observed end, capped exactly the cap's worth, rotated only a prefix of the new file; each one stretch of one file |
| TailRead.RequestsAreBounded | lisp/relay-core.el:678-759 | At most ceil(cap / 1 MiB) requests are sent, and so many suffice |
| TailRead.SplicedExactly | lisp/relay-core.el:678-759 | Whatever happens to the files, a delivery that is not re-anchored is one stretch of a content, the last request's in particular, if and only if every range read still holds there the bytes read |
| TailRead.RewrittenFileIsSpliced | server/src/revisions/read.rs:150-154 | A file rewritten in place after the first of any number of requests, at any offset, is delivered as old chunk and new rest, a stretch of the new content if and only if the chunk did not change |
| TailRead.GrowingReply | server/src/revisions/read.rs:133-178 | A reply is exactly the requested stretch, full if there is more |
| TailRead.Remote.Tail | server/src/revisions/read.rs:133-178 | The read loop computes that reply with appends between its pieces |
| DirCache.CacheIsCoherent | lisp/relay-prefetch.el:538-589 | Over every run: whenever no event is on its way, a cached listing is the remote directory's, torn enumerations included, if that was under a live watch since before the readdir was issued and no report since was of one of its entries that was itself watched, nor did it move unreported |
| DirCache.StepKeepsCoherent | lisp/relay-prefetch.el:538-720 | Every step keeps: such a listing is current or a report that evicts it is on its way |
| DirCache.WatchedFirstExactly | lisp/relay-prefetch.el:538-589 | The listing that a readdir will bring can be relied on as long as it is cached, however things go on, if and only if its directory is under a live watch when it is asked for, no entry of it is or gets watched, and every directory above is under a live watch or an entry of one that is |
| DirCache.EntryIsToldExactly | server/src/main.rs:104-150 | The report of an entry's change evicts the listing of the directory it is in, if and only if the entry is not watched itself |
| DirCache.BelowIsTold | server/src/main.rs:104-150 | Either way it evicts the entry's own listing and everything below |
| DirCache.WatchedEntryMisleads | server/src/main.rs:123-131 | From every quiet state: a change through a watched entry is reported and received, and the directory's stale listing stays, with its watch in place |
| DirCache.FirstListingGap | lisp/relay-prefetch.el:546-554 | The first listing can stay stale for good |
| DirCache.UnreportedMoveMisleads | server/src/control.rs:52-60 | A move of a directory above that is watched neither itself nor through its parent leaves a listing of nothing |
| DirCache.DeadWatchStays | server/src/control.rs:43-60 | Once a watched directory is removed its path is not watched again, whatever is asked for, unless the watch is given up or the very directory is moved back |
| DirCache.RemadeDirectoryMisleads | server/src/control.rs:43-60 | So no listing of what is made there later can be relied on |
| DirCache.SilentChangeIsUnheard | server/src/control.rs:54-54 | A change that the watch of a directory alone does not report leaves the attributes in its listing stale, nothing being on its way |
| DirCache.Cache.HandleEvent | lisp/relay-prefetch.el:703-746 | Every event advances the epoch and evicts the directory and everything under the named entry |
| DirCache.Cache.EvictPrefix | lisp/relay-prefetch.el:445-454 | Evicts exactly a directory and everything nested in it |
| DirCache.Cache.Install | lisp/relay-prefetch.el:548-589 | Installs only under the epoch the fetch began with |
| Listing.Directory.ReaddirStream | server/src/fs_handlers.rs:258-372 | Whenever the opened directory later has the modification time it had at the look-up before the enumeration, the listing is exactly its names, for every interleaving; the key sent is the path's at that look-up, and vouches for the listing if the path was then that directory itself; sent as full batches and one last message |
| Listing.VouchesExactly | lisp/relay-prefetch.el:626-675 | A key vouches for a non-empty listing over every later state in which the path is the same, if and only if the path was no link at the look-up and named a directory with exactly those names, or one that has changed since |
| Listing.LinkedPathMisleads | server/src/fs_handlers.rs:258-261 | If the path is a symbolic link, a change of the very directory listed passes the test |
| Listing.MissingPathMisleads | lisp/relay-prefetch.el:654-668 | If the path is missing at the look-up and still is, the test passes, and is right if and only if nothing was listed |
| Listing.ReboundPathMisleads | server/src/fs_handlers.rs:321-341 | If the path names another directory at the look-up, the test passes as long as that does not change, and is right if and only if both have the same names |
| Listing.RemadePathMisleads | lisp/relay-prefetch.el:654-668 | If another directory or link with the very same time is at the path later, the test passes, and is right if and only if the names are the same |
| Listing.BatchesAreWhole | server/src/fs_handlers.rs:342-372 | floor(n / 2000) + 1 messages, only the last without `more`, together exactly the entries |
| Listing.ListingArrives | lisp/relay-prefetch.el:489-515 | For every interleaving with other replies the client ends with exactly the server's entries in order |
| Listing.MtimeTakenAfterwardsMisleads | server/src/fs_handlers.rs:329-341 | When a listed name is removed during the enumeration of a path that is no link, the time taken before it never passes the reconnect test again while the path stays; one taken after passes and vouches for the name |
| ContentCache.PutKeepsCaps | lisp/relay-content-prefetch.el:97-123 | Global cap, per-directory cap of direct entries and distinct keys hold after every put, although counting is by prefix |
| ContentCache.PutSurvivesExactly | lisp/relay-content-prefetch.el:113-120 | The entry put survives if and only if nested entries leave room and the cache may hold anything |
| ContentCache.PutChangesOneKey | lisp/relay-content-prefetch.el:100-106 | Bytes and revision of a key come from one and the same put |
| ContentCache.PutIsWithin | lisp/relay-content-prefetch.el:106-123 | What survives keeps its order |
| ContentCache.TrimDirCounts | lisp/relay-content-prefetch.el:113-120 | How many entries of the directory the loop leaves |
| ContentCache.GetAndEvictKeepCaps | lisp/relay-content-prefetch.el:69-138 | Lookups and evictions cannot break a cap |
| ContentCacheCode.Cache.Put | lisp/relay-content-prefetch.el:97-123 | The three tables stay in step and hold the list's put, both caps hold again, and both loops end |
| ContentCacheCode.Cache.GetEntry | lisp/relay-content-prefetch.el:125-138 | Finds bytes with their own revision and makes the key the most recent |
| ContentCacheCode.Cache.EvictPrefix | lisp/relay-content-prefetch.el:74-82 | Evicts exactly the path and everything below it |
| ContentCacheCode.Cache.DirCount | lisp/relay-content-prefetch.el:62-67 | Counts by prefix |

## Left out

- Buffer text is taken as its UTF-8 bytes: coding systems, end-of-line conversion and the encoding of unencodable
  characters are not modelled. Nor are the mode line, header, timers, recovery buffers, Ediff windows and reading
  keys; a conflict choice is an input.
- Renames of ancestor directories: a path's directory part is a name, so a conditional write whose directory is
  moved between two calls is not covered.
- `fsync` durability, ownership checks and crash recovery: `sync_all` may fail and otherwise does nothing.
- Path expansion and the watch alias table; symbolic links but for the path a listing's key is looked up at.
- JSON text and base64: messages are values. JSON matters only where a token becomes a map, and error texts of
  rejected tokens are one error.
- `exec`, and the legacy write, mkdir, rmdir, delete, rename and copy operations as code: they are steps anyone
  may take (`ConditionalWrite.Server.Elsewhere`).
- Connecting, the handshake and its waiters, SSH, and the sentinel beyond failing pending requests.
- Re-entry of the process filter during a dispatch, and callbacks that themselves block: one filter call, drain,
  timer or callback is one step. So is a save callback with its hooks: in the runs of the save system an error stops it
  before it takes effect (`SaveControl.FaultEndsExactly` says what a later one does), and an `after-save-hook` that
  itself starts a save, which leaves that operation active under the status of the confirmed one, is not modelled.
- `read_range`: a bounded read with the same two samples as the stable read.
- Content prefetch selection and its replies, which no epoch guards; the prefetch profiles and their file.
- Dired, completion, attribute formatting, and the file-name handler table.
- SaveStore.NoLostUpdate: the held version may have been held for another file after a refused Save As or a rename
  of the buffer; `SaveOrigin.OwnExactly` says exactly when it was not.
- Listing.Directory.ReaddirStream: assumes that no entry fails to be read; such an entry is dropped silently by
  the code, and `skipped` says when that happened.
- JointRuns.ReplacedFileWasHeld: a publication whose path was touched since its second check is no write of these runs,
  being one that does replace what its client never held (`Linearize.ForeignWriteCanBeLost`); under the shared lock
  there is none (`Linearize.ReplacesExactlyWhatItExpects`). Nor are runs with a misadopted Restore Base covered.
- Listing.VouchesExactly: is about later states in which the path is the same; of a path made anew in between
  `Listing.RemadePathMisleads` speaks.
- The watcher library: what it reports is assumed as inotify has it. A directory under watch reports the path of every
  entry that changes, and its own when it is removed or moved itself; reports that are lost reach the server as an error.
  A recursive or path-based watcher reports more.
- StoreRefinement.ConditionalWriteRefinesServeWrite: of conditional writes that others leave alone while they run, as
  the shared lock has it; of any others `StoreRefinement.PublicationRefinesServeWrite` speaks.
- DirCache.CacheIsCoherent: says nothing of listings installed by reconnect revalidation beyond their names, since
  a file's own attributes can change without its directory's modification time.
- TailRead.Remote.Tail: the imperative read is proved for files that only grow; otherwise the reply is whatever
  the reads saw.
