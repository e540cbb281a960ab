# jit's key protocol, session and scanner core, in Dafny

This project models three parts of jit and proves what each is for.

**Keys in two stores.** A standing grant, or an AI job that runs without asking, is a record in a state file whose
entries are sealed under a key kept in a separate key store, in the keychain or in the Secure Enclave. `GrantProtocol`
is a step system over both stores: each step is one section under a lock, one key-store call or one file write, any of
them may fail, and the process may die between any two. `GrantSafety` finds the invariant and proves that no record
ever lacks an approved secret or its only key; `GrantApprovals` says what each approval leaves on file and what a live
grant serves, `GrantPaths` that creates, revokes and approvals get there; `GrantRuns` proves that a revoke is final
and that older pictures of the ledger never reach disk after newer ones; `GrantReturn` says exactly when a revoked
grant can be served after a restart, and shows one that is. `GrantWorld`, `GrantMove`, `GrantOrphans` and `NamedKeys`
are the start-up move and cleanup as they run, loop by loop, over a store whose every call may fail; `GrantKeep` and
`GrantOutcome` say of two moments what may have happened to keys and records between them, and `GrantRerun` what a
second start does and when a move can cost a record a key. `GrantStart` joins them to the protocol: from every
reachable state, whatever fails, start-up is a run of it, and nothing is lost at any moment of that run. `GrantHandle`
is the life of a cached key handle, `TimedGrants` the buffers of timed grants, `AtomicFile` the durable write,
`LedgerFile` the ledger's load and save.

**The session.** `SessionSpec` says as functions what each section under the server's mutex does, and what a history of
unlocks, locks, key copies and prompts may look like. `SessionRuns` is the step system of queued callers, prompts,
armed and fired timers, explicit locks and lazy collection, and proves that every run leaves such a history.
`SessionServer` is the server's fields and methods, key buffers wiped in place, each proved to do what the functions
say. `SessionEvents` is the event ring, use collapsing, and the hand-off with each thread and what it has in hand,
`PromptBackoff` the growing pause after refusals.

**The scanner's text core.** `Utf8` and `PatternLeads` model the regex syntax tree with a match relation for every node
and prove that the leads read off it never drop a match; `PatternSweep` is the indexed scan for them. `TokenClaims`
settles when the two overlap rules agree, `TokenMerge` proves the merge against a rule without an order, `LineScan` and
`TextTokens` the truncating line reader under any reads and the offsets back into the file. `CacheFile` puts these
together as they are used on one cache file. `SubstrSearch` is the many-string search, `WorkerPool` the byte-budgeted
pool.

Conventions. A key's bytes are its owner, its kind and a serial number that stands for its randomness: two creates
never make the same bytes. Sealing is abstract: a copy opens under the key and the class it was sealed for and no
other. A choice the environment makes, such as whether a call fails or how many bytes a read returns, is left open
(`*`, `:|` or a function passed in), so the contracts hold for every choice; where a constant says that nothing fails,
they also say that the work is then done. Times are integers; each locked section reads the clock once.

Where the code and its comments differ, the code was followed. Three claims are false as stated, and each has an input
that shows it and its exact condition:

- A revoke outlives a restart: `GrantReturn.RevokedCanComeBack` and `GrantReturn.ServedAfterRestartIff`.
- A move costs no record a key it may need, above all one with entries this build cannot read:
  `GrantRerun.UnreadKeyLost`; `GrantRerun.MoveIsSafe` on every store, and `GrantRerun.MoveOnHiccups` on the store that
  shows its condition to be needed.
- A literal's lead is in every match of it: `PatternLeads.LiteralDropsNoneIff`, whose proof builds the match.

`dafny verify dfyconfig.toml` checks the whole project.

## Model

| member | source | states |
|---|---|---|
| GrantSafety.NoLostKey | internal/agent/grantmove.go:20-30 | After any run of creates, serves, revokes, job approvals and removals, lawful start-up changes, failures and crashes, every record on disk with a key has an entry for each secret approved for it and no other, and each opens with a stored key of the kind it names to the DEK that was approved; only opening is excused, and only of a grant whose ending has begun |
| GrantStart.StartUp | internal/agent/grantmove.go:54-71 | From every reachable state the move and then the cleanup, whichever of their calls fail, change the disk only by steps of the protocol; after each single change nothing still needed is lost, and every record means what it meant |
| GrantStart.ReachedIsUnmixed | internal/agent/job.go:396-413 | In no reachable state has a record still to be moved an entry that opens with a key of the target kind, so a move there loses nothing on any store |
| GrantSafety.StepInv | internal/agent/standing.go:746-922 | The protocol's invariant survives every step, whichever sections of creates, serves and revokes interleave |
| GrantSafety.JobStepInv | internal/agent/job.go:386-452 | The invariant, every approved secret of each job record included, survives each step of a job's key: made, sealed under, filed in the job's place, let go, deleted |
| GrantSafety.FilesAreUniform | internal/agent/job.go:396-413 | Every record any run leaves on disk is sealed for one kind of key, so no mixed record ever arises |
| GrantApprovals.ApprovedJobIsFiled | internal/agent/job.go:391-452 | After an approval that was saved the file names the job with every secret, each opening with the stored key to its DEK, every other job is as it was, and the key of the job it replaces is to go |
| GrantApprovals.EachTimeKeepsNoKey | internal/agent/job.go:447-452 | A job approved to ask each time has no key and no entry, and the key of the job it replaces is to go |
| GrantApprovals.RemovedJobIsGone | internal/agent/job.go:542-575 | A removal that was saved takes that job alone off the file, and its key is to go |
| GrantApprovals.SealedGrantIsWhole | internal/agent/standing.go:778-800 | A grant about to be published has an entry for every approved secret, each opening with its key to its DEK, and that record is what is published |
| GrantApprovals.CreatedIsOnFile | internal/agent/standing.go:796-817 | In any run, a create told that its save is done is on file with every approved secret, each opening to its DEK, unless somebody has begun to revoke it meanwhile |
| GrantApprovals.LiveGrantCanServe | internal/agent/standing.go:898-936 | In every reachable state a published grant has, for each secret approved for it, an entry whose key is at hand |
| GrantApprovals.LiveGrantServes | internal/agent/standing.go:898-936 | Until a grant's ending begins, each serve of it yields just the DEK that was approved, the cached key and a loaded one alike |
| GrantApprovals.DropsJustThose | internal/agent/standing.go:136-145 | A key delete drops the keys of that id it reached and nothing else |
| GrantPaths.CreateGoes | internal/agent/standing.go:746-822 | From any state with a ledger and no save under way, the sections of a create of a fresh id can be taken in turn, and leave the grant published and on file with every secret |
| GrantPaths.FailedSaveIsUndone | internal/agent/standing.go:801-815 | A create whose save failed goes on to leave no grant, no live handle and no key of its id |
| GrantPaths.AbortedIsUndone | internal/agent/standing.go:773-795 | A create that fails before it is published leaves no key of its id, and files and grants as they were |
| GrantPaths.RevokeGoes | internal/agent/standing.go:1000-1026 | So do those of a revoke, leaving the grant retired, off the file, and no key of its id |
| GrantPaths.JobGoes | internal/agent/job.go:386-452 | So do those of a never-ask job's approval, leaving it on file with every secret and the replaced job's key ready to drop |
| GrantPaths.AbandonedJobIsUndone | internal/agent/job.go:386-411 | An approval that fails before the job is filed leaves no key of its id, and the files as they were |
| GrantPaths.RemoveJobGoes | internal/agent/job.go:542-575 | A job with a key can be removed and its key dropped, of both kinds |
| GrantFrames.ServeOther | internal/agent/standing.go:898-922 | Serving one grant yields nothing of another's |
| GrantRuns.RevokeIsFinal | internal/agent/standing.go:1000-1026 | Once a revoke has returned no serve in this process yields the grant's DEKs, and if its key delete or its ledger write took effect none does in any later process |
| GrantRuns.KeyDeleteIsFinal | internal/agent/standing.go:136-145 | A key delete takes effect as soon as it reached every kind the grant's entries name |
| GrantRuns.LedgerWriteIsFinal | internal/agent/standing.go:1020-1026 | So does the revoke's own save, if it was written |
| GrantReturn.ServedAfterRestartIff | internal/agent/standing.go:1000-1026 | Once a revoke has begun, some later process can serve the grant if and only if the restart finds its record in the ledger file with a copy the stored key opens |
| GrantReturn.RevokedCanComeBack | internal/agent/standing.go:1000-1026 | A run in which a revoke has finished, its key delete and its save both missing, and a later process serves the grant |
| GrantRuns.NeverResurrected | internal/agent/standing.go:644-721 | An id a revoke's save erased is in no ledger file, no snapshot under way and no published grant ever after |
| GrantRuns.SnapshotsReachDiskInOrder | internal/agent/standing.go:660-721 | Within a process the ledger file is always a value the published grants had, and only moves on to later ones |
| GrantRuns.OnlyApprovedDeks | internal/agent/standing.go:898-922 | Every DEK any serve in any run handed out is the one approved for that grant and secret |
| GrantRuns.BootLogIsRun | internal/agent/grantmove.go:59-71 | Every sequence of lawful start-up changes that makes keys only for minted ids is a run of the protocol |
| GrantWorld.DropKeepsMeaningIff | internal/agent/grantmove.go:148-163 | Deleting a key leaves every record's meaning as it was if and only if no entry on disk opens with it |
| GrantWorld.World.LoadWrap | internal/cli/grant.go:737-739 | A load gives the key filed under that id and kind, unless it is absent or refused that time, and changes nothing |
| GrantWorld.World.CreateWrap | internal/cli/grant.go:741-750 | A key that is there is loaded, and may be refused; one that is not is made fresh; a failure changes nothing |
| GrantWorld.World.DeleteWrap | internal/cli/grant.go:752-758 | Any key may be asked to go; success means that key alone is gone, unless its store is out of reach, when nothing happens; a reported failure may have taken effect or not |
| GrantWorld.World.ListKeyIds | internal/cli/grant.go:765-775 | Lists exactly the ids with a key of a kind within reach |
| GrantMove.SealItems | internal/agent/grantmove.go:122-145 | Every item re-sealed for the target opens with the new key to what it opened to with its old one; an item already of the kind is untouched; no key changes; if no call fails it fails only for an item that does not open |
| GrantMove.Reseal | internal/agent/grantmove.go:98-146 | Changes no record and no other key, and succeeds, if no call fails, exactly when every entry opens; a key there before is gone only if it was refused to load once, not the next time, and the re-sealing then failed, and certainly then if the delete works; so every record keeps its meaning if and only if the key that went opened nothing |
| GrantMove.DeleteOthers | internal/agent/grantmove.go:156-163 | Asks only the other kind's key to go, and none where unreadable entries may need it |
| GrantMove.Server.ResealGrants | internal/agent/grantmove.go:217-232 | Each grant is re-sealed in turn without a file changing; those that fail are left out, and if no call fails those are exactly the ones that do not open |
| GrantMove.Server.CommitGrants | internal/agent/grantmove.go:233-264 | One write files every new copy; if it fails memory is put back equal to the file, with every key kept |
| GrantMove.Server.MoveStandingKeys | internal/agent/grantmove.go:165-274 | Every grant with an entry of another kind ends wholly on the target kind, or exactly as it was and reported, a reported one with its old key; every covered secret means what it meant and a grant with unread entries keeps every key, unless the grant failed on a store that refuses loads; memory equals the file; each settled grant's old key was asked to go; no other id's key changes; if no call fails exactly the grants with an entry that does not open are reported, and still do not open |
| GrantMove.Server.MoveJobKeys | internal/agent/grantmove.go:276-365 | The same for every job with a key of its own that this build reads in full; any other job is as it was, and no key of it changes |
| GrantMove.Server.MoveGrantKeys | internal/agent/grantmove.go:59-71 | Both moves together, each file's outcome being what its own move promises, counted together |
| GrantRerun.MoveTwice | internal/agent/grantmove.go:24-30 | The move the next start makes takes on only what the first reported; if no call fails it moves nothing, reports the same records and changes no file |
| GrantRerun.MoveIsSafe | internal/agent/grantmove.go:98-113 | If loads are never refused, or no record to be moved has an entry that opens with a target key, a move loses no meaning; if loads are never refused, or no grant to be moved with unread entries has a target key, such grants keep every key |
| GrantRerun.MoveOnHiccups | internal/agent/grantmove.go:98-113 | On the store that refuses each target key's first load, for every disk, meaning is kept if and only if that condition holds, and so are the keys of grants with unread entries |
| GrantRerun.UnreadKeyLost | internal/agent/grantmove.go:148-163 | A grant with one keychain entry, one unread entry and an enclave key loses that key in such a move, though its records are uniform |
| GrantOrphans.DeleteBoth | internal/cli/grant.go:704-717 | Deleting an unknown id asks for both its keys, touches no other id's, and success means no reachable key of it is left |
| GrantOrphans.DeleteOrphanGrantKeys | internal/agent/grantorphans.go:54-107 | Nothing goes unless both files loaded; no key goes whose id a file mentions anywhere or a loaded record has, or that is not of the minted shape; each other id with a key in reach is reported once, as deleted or not, and if no call fails all are deleted |
| NamedKeys.NamedKeyIds | internal/agent/standing.go:568-599 | Collects exactly the texts of the minted shape in the document, at any depth, names of fields included |
| NamedKeys.MentionsParts | internal/agent/standing.go:577-596 | A text is somewhere in a document if and only if the document says it or one of its parts has it somewhere |
| GrantHandle.NothingAfterClose | internal/agent/standing.go:883-897 | In a clean history nothing happens to a key handle after its close |
| GrantHandle.StandingGrant.OpenStanding | internal/agent/standing.go:898-922 | A serve opens only with a key of the kind its entry names, loads one only when none is cached, closes the one it replaces, and yields nothing once the grant is dead |
| GrantHandle.StandingGrant.Retire | internal/agent/standing.go:295-303 | Retiring closes the one live handle; the grant is dead and owns none from then on |
| GrantHandle.StandingGrant.FailCreate | internal/agent/standing.go:773-777 | A create that fails before publishing leaves no handle open |
| TimedGrants.TimedGrant.WipeDeks | internal/agent/grant.go:144-150 | Every cached DEK buffer is zeroed and forgotten |
| TimedGrants.GrantStore.TimedUnwrap | internal/agent/grant.go:511-583 | Walks every covering grant with the lock let go between sections: what is handed out is a fresh copy from a grant that is then in the store, inside its deadline, its root alive and an ancestor; with no other thread about a copy is handed out exactly when some grant would serve, and only grants past their deadline or root end |
| TimedGrants.GrantStore.PruneGrants | internal/agent/grant.go:772-794 | With no other thread about exactly the grants past their deadline or whose root is gone end |
| TimedGrants.GrantStore.EndGrant | internal/agent/grant.go:727-746 | Ends that grant alone: its buffers are zero from then on, every other grant gives what it gave, and every copy handed out is as it was |
| AtomicFile.Directory.WriteFileMode | internal/atomicfile/atomicfile.go:37-81 | At every moment a reader, or a crash then, finds the old file or the whole new one with its mode; an error means the old one, and the temp file asked to go; success means the new one, past any crash if the directory sync took; if no call fails it succeeds |
| AtomicFile.RenameOldOrNew | internal/atomicfile/atomicfile.go:65-75 | The rename is safe because what it names is already synced |
| AtomicFile.OnlyTempUntouched | internal/atomicfile/atomicfile.go:43-57 | Whatever happens to the temp file, no reader and no crash sees it at the destination |
| AtomicFile.DurableSurvives | internal/atomicfile/atomicfile.go:65-81 | Of a synced file under a durable name a crash leaves just what a reader saw |
| LedgerFile.SaveThenLoad | internal/agent/standing.go:667-721 | Loading what a save wrote gives the same grants to the second, with unread entries and unaccepted records as the same JSON values |
| LedgerFile.ManyCycles | internal/agent/standing.go:419-561 | So do any number of saves and loads one after another |
| LedgerFile.AnyFileSurvives | internal/agent/standing.go:471-515 | Whatever a file held, loading and saving it loses nothing the load accepted or kept |
| LedgerFile.FileCarriesOver | internal/agent/standing.go:471-721 | Said of the two files alone: after a load and a save the new file has, of each grant's records the last, every field of it, unknown ones too, every entry this build cannot use as often as before and of the others the last of each digest; each record it cannot load is there as it was unless a grant has its id; and nothing else is |
| LedgerFile.OneOfEach | internal/agent/standing.go:549-561 | A saved ledger never holds two grants of one id, nor a kept record beside a grant of its id |
| LedgerFile.Ledger.SetGrantLedger | internal/agent/standing.go:471-515 | Loads just the grants named in full and keeps of the other records those no grant has the id of; a file that cannot be read loads nothing and is not saved over |
| LedgerFile.Ledger.GrantFromLedger | internal/agent/standing.go:517-547 | Of a record's entries those of a known wrap with sealed bytes, both names and no unknown field are served, by digest the last; every other one is kept unread as often as it was there |
| LedgerFile.Ledger.UnshadowedGrants | internal/agent/standing.go:553-561 | Keeps, in order, the kept records no loaded grant has the id of |
| LedgerFile.Ledger.SaveLedger | internal/agent/standing.go:667-721 | Writes one record for each grant, then the kept ones, and only where there is a path |
| SessionSpec.Alternates | internal/agent/session.go:754-796 | In a sound history a lock lies between any two unlocks, and an unlock between any two locks |
| SessionSpec.CopiesEndAtCeiling | internal/agent/session.go:749-759 | However often a session is touched, no copy of its key goes out once the ceiling has passed since its own unlock |
| SessionSpec.PromptsRest | internal/agent/session.go:580-604 | After the last failed unlock the next prompt able to open a session was asked for by name or waited out the cooldown |
| SessionSpec.StatusAgreesWithTouch | internal/agent/session.go:1033-1064 | Status says unlocked exactly when a touch or a peek at that moment would hand out the key |
| SessionSpec.TouchRenewsPeekDoesNot | internal/agent/session.go:709-746 | Inside both bounds a touch starts the idle time over and outdates every timer armed before, and a peek moves no bound and no timer; both hand the key out |
| SessionSpec.DoneEndsBoth | internal/agent/session.go:754-796 | Past either bound neither hands anything out, and both end the session |
| SessionRuns.RunSound | internal/agent/session.go:568-694 | Every run of callers, prompts, timers, locks and collections leaves a sound history: sessions open only when none is open and end only when asked or at their bounds, copies go out inside both bounds, prompts go up alone, and unlock prompts only on no session and outside the cooldown |
| SessionRuns.RunFacts | internal/agent/session.go:835-859 | In every run a live session is the one last unlocked and has exactly one timer of the current generation, due when the nearer bound runs out; no two callers are asking at once; an approval that adopts finds no session |
| SessionRuns.TimerKept | internal/agent/session.go:888-911 | A fired timer of an older generation changes nothing, and none ends a session before its bounds do |
| SessionRuns.InstallKept | internal/agent/session.go:672-694 | Installing on no session re-establishes the one current timer and a sound history |
| SessionRuns.AdoptKept | internal/agent/session.go:238-251 | So does adopting an approved question's key, collecting a lapsed session first |
| SessionRuns.StepInv | internal/agent/session.go:257-330 | What holds of the mutex's fields and of the prompt's holder survives every step |
| SessionRuns.AskedLockEnds | internal/agent/session.go:888-919 | A lock someone asked for ends the session whatever timer is armed: no key, no bounds, no timer, and a lock on record if one was open |
| SessionRuns.NothingAfterLock | internal/agent/session.go:888-919 | In every run no copy of the key goes out after an asked-for lock until the next unlock |
| SessionRuns.TimerLockEnds | internal/agent/session.go:888-919 | The current timer's turn ends the session; an older one's changes nothing but that it is gone |
| SessionRuns.TimerGoes | internal/agent/session.go:835-911 | Once a live session's bounds have run out its one timer, fired or able to fire, ends it at its turn |
| SessionRuns.UseGoes | internal/agent/session.go:709-746 | A use before the bounds is on record and starts the idle time over, a look is on record and does not; past them either one ends the session |
| SessionRuns.RefusalIsNoted | internal/agent/session.go:633-653 | A refused unlock prompt is noted and the pause counts from it, a session being neither opened nor ended |
| SessionRuns.ApprovalOpens | internal/agent/session.go:655-667 | An approved one opens a session from that moment, hands its caller a copy and clears the pause |
| SessionRuns.UnlockGoes | internal/agent/session.go:568-620 | An unlock whose turn has come rides an open session; with none it gets its prompt, unless it was not asked for by name and the pause is on: then nothing goes up |
| SessionRuns.DiscloseGoes | internal/agent/session.go:257-292 | A question whose turn has come may be turned away, nothing going up; one that goes up offers to unlock as well just when it may, no session is open and the pause is not on |
| SessionRuns.OfferOpens | internal/agent/session.go:322-329 | An approved offer opens a session from that moment unless one is open by then |
| SessionServer.Server.ArmLockTimer | internal/agent/session.go:835-859 | The fields become those of the next generation, its timer due at the nearer bound |
| SessionServer.Server.CollectIfDone | internal/agent/session.go:754-796 | Ends a session past either bound, its buffer zero, and touches no other |
| SessionServer.Server.TouchSession | internal/agent/session.go:709-725 | Inside both bounds, and only then, hands out a fresh copy, starts the idle time over and arms the next generation's timer at the nearer bound; else the session, if any, is over and its buffer zero |
| SessionServer.Server.PeekSession | internal/agent/session.go:736-746 | Inside both bounds, and only then, hands out a fresh copy; in no case does a bound or a timer move |
| SessionServer.Server.InstallSession | internal/agent/session.go:672-694 | Takes the key as the session's own, which no caller has |
| SessionServer.Server.ApproveUnlock | internal/agent/session.go:655-667 | An approved unlock installs and hands out a copy that is not the cache |
| SessionServer.Server.RefuseUnlock | internal/agent/session.go:633-653 | A refusal is noted with its moment and arms the cooldown, changing nothing else |
| SessionServer.Server.AdoptSession | internal/agent/session.go:238-251 | The session opened is a copy of the caller's key, whose own buffer is left alone |
| SessionServer.Server.LockIfGen | internal/agent/session.go:888-919 | For an asked-for lock, and for the current timer, there is no key, no bound and no timer afterwards, the buffer that was held is zero, and the lock is on record if there was a session; a stale timer changes nothing; no copy handed out changes |
| SessionServer.Server.Status | internal/agent/session.go:1033-1064 | Reports exactly whether a touch would succeed, and the lesser of the two times left |
| KeyBuffers.Wipe | internal/agent/session.go:792-794 | Every byte of the buffer is zero |
| KeyBuffers.CopyOf | internal/agent/session.go:61-65 | A new buffer of the same bytes |
| SessionEvents.EventLog.RecordEvent | internal/agent/events.go:67-76 | The event is the last of the ring, the ring is the end of everything restored and recorded, as much as 200 leave room for, and the event goes with the thread that recorded it |
| SessionEvents.EventLog.SeedHistory | internal/agent/events.go:54-61 | The ring becomes the end of the restored events, 200 of them or all |
| SessionEvents.OneMore | internal/agent/events.go:171-174 | A collapsed use counts once more, its names staying distinct and at most eight |
| SessionEvents.EventLog.RecordAggregated | internal/agent/events.go:154-178 | Each use is counted once: recorded uses equal the pending count plus the counts of all flushed events |
| SessionEvents.EventLog.FlushUses | internal/agent/events.go:185-201 | Flushes exactly the aggregates whose window is over, or all, oldest first, losing no count; what is left is younger than the window |
| SessionEvents.EventLog.TakeDue | internal/agent/events.go:189-197 | What leaves the pending map is what comes out, sorted by time |
| SessionEvents.EventLog.CollectSession | internal/agent/session.go:782-790 | A collected session's uses are filed before its lock, and parked in that order |
| SessionEvents.EventLog.LockSession | internal/agent/session.go:894-919 | A lock files every pending use before itself |
| SessionEvents.EventLog.TakeParked | internal/agent/session.go:803-828 | What is parked is taken whole and once |
| SessionEvents.EventLog.History | internal/agent/events.go:229-239 | Shows the newest event ever recorded first and the others back in time, 200 or all, with nothing pending |
| SessionEvents.EventLog.HandOn | internal/agent/events.go:203-212 | A thread hands the durable file the first event it holds, after whatever the file has |
| SessionEvents.EventLog.Interleave | internal/agent/session.go:803-828 | In every interleaving of sections and hand-ons of any threads, once no thread holds an event and nothing is parked the durable file has got each recorded event exactly once |
| SessionEvents.EventLog.Drain | internal/agent/session.go:803-828 | Handing on what is left gets there from any state |
| PromptBackoff.WindowBound | internal/agent/session.go:418-433 | Over any stretch with no approval and nothing cleared, one asker's refused prompts in a window number one if it is shorter than two seconds, two if shorter than ten, and otherwise at most three and one more for each half minute past ten seconds |
| PromptBackoff.Backoff.Check | internal/agent/session.go:374-390 | A question is turned away exactly while its asker's pause lasts |
| PromptBackoff.Backoff.NoteOutcome | internal/agent/session.go:394-412 | An approval drops the asker's pause, a refusal counts one more and earns the next pause of the schedule or its last, a full map forgets all; at most 64 askers are held |
| PromptBackoff.Backoff.Clear | internal/agent/session.go:448-452 | A fresh unlock drops every pause |
| Utf8.DecodedIsEncoded | internal/audit/agentcachepatterns.go:165-169 | What the engine reads as any rune but U+FFFD is that rune's own bytes |
| Utf8.ReadsWellFormed | internal/audit/agentcachepatterns.go:165-169 | The engine reads as more than one byte just the well-formed sequences of table 3-7 of the Unicode Standard, and any other byte from 0x80 on as U+FFFD |
| PatternLeads.LeadsSound | internal/audit/agentcachepatterns.go:161-219 | Of every syntax tree with fixed first bytes, none with U+FFFD in them, every match anywhere in any text begins with one of its leads |
| PatternLeads.LeadsAreStarts | internal/audit/agentcachepatterns.go:161-219 | A parsed tree has leads if and only if it has fixed first bytes: it is a literal of one case, captures such a tree, has such branches only, or its first part past the assertions is such; and the leads are just what its ways through begin with, a literal head spread over the branches after it |
| PatternLeads.LiteralDropsNoneIff | internal/audit/agentcachepatterns.go:165-169 | A literal's lead drops no match if and only if U+FFFD is not in the literal |
| PatternLeads.LeadsHaveBytes | internal/audit/agentcachepatterns.go:214-219 | No lead is empty, so each has a first byte to be filed under |
| PatternSweep.LeadIndex.constructor | internal/audit/agentcachepatterns.go:126-148 | Indexes one needle for each lead of each pattern, in table order, each under its first byte |
| PatternSweep.NeedlesAreStarts | internal/audit/agentcachepatterns.go:117-148 | The needles are, of each pattern with fixed first bytes, just what its matches may begin with |
| PatternSweep.LeadIndex.Candidates | internal/audit/agentcachepatterns.go:236-273 | Finds every place any needle begins, and nothing else, in file order and then table order |
| PatternSweep.MatchStartIsCandidate | internal/audit/agentcachepatterns.go:46-50 | Wherever a pattern with fixed first bytes matches, one of its own needles is a candidate, if none of them has U+FFFD in it |
| TokenClaims.Sweep | internal/audit/agentcachepatterns.go:274-320 | Claims by place in the file: the chosen matches are disjoint and maximal, and the check on the needle alone never changes the choice |
| TokenClaims.LineClaims | internal/audit/content.go:417-450 | Claims by place in the table over what FindAll reports, none overlapping another |
| TokenClaims.FindAllApart | internal/audit/content.go:417-428 | Of one pattern the scan reports matches left to right, each past the end of those before |
| TokenClaims.ChosenIsUnique | internal/audit/agentcachepatterns.go:254-272 | An order over the candidates makes one choice |
| TokenClaims.OrdersAgree | internal/audit/agentcachepatterns.go:259-264 | If of two overlapping matches the one earlier in the table starts no later, both orders choose the same |
| TokenClaims.UnalignedDiffer | internal/audit/agentcachepatterns.go:263-266 | Without that they can choose differently |
| TokenClaims.ClaimersAgreeIff | internal/audit/agentcachepatterns.go:254-266 | Over aligned candidates the two claimers report the same matches if and only if the left-to-right scans report every match the sweep keeps |
| TokenClaims.KeptAreReported | internal/audit/content.go:424-428 | They do when no kept match starts inside an earlier match of its own pattern |
| TokenMerge.MergeTokens | internal/audit/agentcachepatterns.go:500-521 | Keeps a swept token if and only if it covers every line token it overlaps, and a line token if and only if no such one overlaps it; sorted and disjoint |
| TokenMerge.NoByteLost | internal/audit/agentcachepatterns.go:483-487 | Every byte a line token covered is covered by a kept token |
| LineScan.Splitter.Split | internal/audit/linescan.go:55-91 | Which stretch of the input one call of the split function consumes, and the token it gives, in every case |
| LineScan.Scanner.Scan | internal/audit/linescan.go:39-46 | However the file is cut into reads, each call gives the next line's reading, and none is left when there is no more; the buffer never fills |
| LineScan.OneReading | internal/audit/linescan.go:93-105 | A line reads as its first bytes, up to one CR that ends it or to the limit if that comes first, unless it is of just the limit and ends in CR |
| LineScan.LinesCutAtNewlines | internal/audit/linescan.go:35-38 | The lines make up the file from where they start, each up to its newline or the end, none with a newline inside, the next right after |
| LineScan.LimitReadsBothWays | internal/audit/linescan.go:67-90 | In that case both readings come up, as the reads fall |
| TextTokens.LineTokens | internal/audit/content.go:398-459 | Whatever the reads, the tokens are the claims of every line's reading, each with what the reading has there, and no others |
| TextTokens.FoundAreClaims | internal/audit/content.go:398-459 | A token is there if and only if some line's reading has that claim |
| TextTokens.LineStarts | internal/audit/content.go:380-387 | Counts where lines begin after each newline |
| TextTokens.StartsAreLines | internal/audit/content.go:380-387 | That count and the scanner's lines agree, line by line |
| TextTokens.TokensOf | internal/audit/content.go:375-394 | Every line match is returned at its place in the file, and its offsets hold exactly its value |
| CacheFile.Matches | internal/audit/agentcachepatterns.go:236-345 | The sweep's tokens are the choice by place over every match found where a needle of its pattern begins |
| CacheFile.FinderChooses | internal/audit/content.go:417-450 | What is taken of one line is the choice by place in the table over what the patterns report of it |
| CacheFile.SweepMissesNone | internal/audit/agentcachepatterns.go:46-50 | Of a pattern with fixed first bytes, none with U+FFFD in them, every match anywhere in the file is among what the sweep chooses from |
| CacheFile.FileMatchesApart | internal/audit/content.go:398-459 | The line scanner's tokens of a whole file do not overlap |
| CacheFile.CacheFileTokens | internal/audit/agentcachepatterns.go:474-495 | The tokens of one cache file are the sweep's or, of a file-shaped one within 5 MiB, the merge of the line scanner's with the sweep's; they are in file order, no two overlap, and each one's offsets hold exactly its value |
| NeedleBuckets.Buckets.File | internal/audit/agentcache.go:162-174 | A needle is filed under its first byte, an empty one nowhere |
| SubstrSearch.SubstrIndex.FindAll | internal/audit/agentcache.go:187-237 | For each needle the first place, the number of places, overlapping ones too, and the first name offered |
| SubstrSearch.NaiveSearch | internal/audit/agentcache.go:176-178 | That is what looking for each needle at every place would find: the least place, and the number of all places; an absent or empty needle is in no map |
| WorkerPool.RunKeeps | internal/audit/agentcache.go:501-534 | On every schedule the sizes of the files being read add up to no more than the budget, unless one file alone is over it and no other has a byte; and each file handed out is held by one worker or done with once |
| WorkerPool.RoomIsUsed | internal/audit/agentcache.go:515-520 | No worker is made to wait for room that is there, nor with no other at work |
| WorkerPool.SomeoneMoves | internal/audit/agentcache.go:515-527 | No worker waits unless another is at work, and until all have left one can move: no wake-up is lost |
| WorkerPool.RunsEnd | internal/audit/agentcache.go:528-533 | Every run, sleeps aside, has at most four moves a file and one a worker |
| WorkerPool.PoolIsInTurn | internal/audit/agentcache.go:471-481 | When all have left every file was processed exactly once, and the findings joined are those of reading the files one at a time |

## Left out

- GrantMove.Server.MoveStandingKeys: what is reported of a grant with unread entries is not modelled, only what happens to it; the close of a key handle cached before the move is part of `GrantHandle` alone.
- GrantStart.StartUp: start-up with both files loaded; with one missing the code's move of that file and its cleanup do nothing.
- GrantMove.Server.MoveJobKeys: counts a job entry whose sealed bytes are not hex as one this build cannot read, where the code fails that job when it comes to re-seal it; either way the job is left as it was.
- GrantProtocol: creates, serves, revokes and job approvals are steps on values rather than methods on objects, so that crashes and other threads can come between any two of their sections; their order, not their aliasing, is what is modelled.
- GrantSafety.NoLostKey: assumes no two mints draw the same id or the same key bytes, says nothing of entries a build cannot read, and takes a save that succeeded as durable, which a power cut can belie where the directory sync fails (`AtomicFile.Directory.WriteFileMode`).
- LedgerFile.SaveThenLoad: works on JSON values, so white space, the JSON text itself and the order in which records and entries are written are not modelled; unknown fields of a grant are one value that a save keeps, as internal/jsonkeep promises.
- NamedKeys.NamedKeyIds: works on a parsed document whose texts are ids, so the JSON text and the eight hex digits of the minted shape are not modelled.
- LedgerFile.Ledger.SetGrantLedger: a file that does not parse and one of a newer version are one case.
- SessionRuns.RunSound: takes the lock of challengeMu and the first section under it as two steps but a clock reading as one per section; use counts, wording and callbacks are not part of the step system.
- SessionEvents.EventLog.HandOn: takes the callback that reaches the durable file as set.
- SessionEvents.EventLog.RecordAggregated: is not ordered against the session's lock, since the code counts a use after letting go of the mutex.
- PatternLeads.LeadsSound: asks that no lead contain U+FFFD, which an unreadable byte matches but is not written as; for whole trees the condition is sufficient, and exact for literals.
- PatternSweep.LeadIndex.constructor: leaves out anchors, of which the code has none.
- TokenClaims.ClaimersAgreeIff: takes both claimers' candidates as given, and a match's bytes as free of newlines so that a line and the file hold the same ones.
- LineScan.Scanner.Scan: assumes that the end of the file is reported only by a read that returns no bytes, as files and byte readers do.
- WorkerPool: a condition variable's spurious wake-ups are not modelled; the code checks again after each.
- CacheFile.Matches: takes what a pattern matches at one place as a function; the windows around a hit and the engine's choice among several matches at one place need assumptions about each pattern. Vendor names, line numbers and assigned names of tokens are left out.
- The socket, wire types, ancestry, prompts, Touch ID wording, reports, naming and placeholder heuristics: calls outside, or formatting.
- AES-GCM, keychain and enclave internals: sealing is the contract that a copy opens under its own key and class only.
- The AWS credential cache, timed-grant timers, prompt hand-offs after an unlock and run identity by seconds: the natural statements do not hold exactly in the code.
- Bounded integers: counts, generations and sizes are unbounded here, as no code path wraps them.
