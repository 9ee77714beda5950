# Verified models of the omega publication protocol and its neighbours

This project models the parts of the repository whose guarantees span whole histories, every
crash point or every message order, and proves those guarantees in Dafny. It needs Dafny 4.11
and nothing else: `dafny verify dfyconfig.toml` checks all files together.

| module | what it models |
|---|---|
| `Wrappers` | the option and result types shared by all modules |
| `Disk`, `Install` | a directory whose file contents and entries are volatile until synced; installing, cleaning and replacing files in it |
| `RootMeta`, `Successor`, `Rotation`, `Preparation`, `Generations` | TUF roots, the successor rules, prepared rotations and their files, and which generation of keys is in force |
| `Release`, `History` | signed releases, the chain rules of the journal, and the objects a history publishes |
| `Journal`, `Commands`, `Claims` | the journal directory; publish, renew and rotate --apply over it; who holds the next version over whole runs |
| `Publishing`, `Publication` | writing the public repository, objects first and the timestamp last; journal and repository end to end |
| `Copying`, `Provision` | copying the journal to an operational home, and handing publication over to it |
| `TrustClient` | the durable trust state of a client and the view a session keeps from it |
| `Stream` | the in-memory store and its bounded snapshot-and-events feed |
| `Peers`, `Gossip` | pinned routes; gossip, deduplication and quorum writes as message-passing steps |
| `Strings`, `Pagination` | cursor pagination and the client's walk over all pages |
| `Base64`, `SignedList` | the parser and printer of the signed list of root nodes |

## How to read the model

- A digest or key ID is an injective function of what it digests, a signature is the key that
  made it, a private key is represented by its public key, and time is whole seconds.
- Commands hold a lock, so they run one after the other. A process can die before any file
  operation: a `Store` carries the number of operations it has left, every postcondition
  holds wherever that number runs out, and `Spent` bounds how many operations a call uses,
  so that a call given enough of them does finish.
- A write that does not complete leaves its file torn, or cut: lacking only the newline that
  ends every record, so that it is complete JSON but not the record.
- A power loss tears or cuts unsynced contents. It lets every directory entry fall back,
  independently of the others, to any value it had since the last directory sync (`Loss`);
  `OrderedLoss` is the filesystem that persists directory operations in order.
- What go-tuf checks is stated as small predicates for sections 5.3 to 5.6 of the TUF
  specification: thresholds, version N+1 under the old and the new root, expiry, exact references.
- What the environment decides (clocks, network answers, random choices, listing order) is a
  parameter of each step, and a run is a list of such steps of any length.

## Where a promise does not hold as stated

Each of these is proved: a witness, and the exact condition under which the code does keep the promise.

- **Successor classification.** `successorRole` accepts a root that gives one fresh key to both
  online roles and keeps a retired key (`Generations.SharedKeyAccepted`). A classified successor
  keeps the shape and rotates exactly one group if and only if its two online roles have
  different keys (`Successor.SuccessorKeepsShape`); the recorded intent that `readRotation`
  demands guarantees that.
- **Exclusive claims after a power loss.** A process that dies after it has removed a torn
  temporary file of a claim, before the directory is synced, leaves a state in which another
  command can claim the version while the old claim can still come back. That happens when a
  reservation is given back (`internal/omega/renew.go:182-189`,
  `internal/omega/rotation_store.go:269-276`) and when `install` replaces a torn file
  (`internal/omega/store.go:217-221`), and for each pair of the three commands
  (`Claims.Displacement`). Over runs of the commands as they are, a power loss can leave a
  version to two commands if and only if, since the directory was last synced, a command died
  having taken away one command's claim to it and another command has claimed it. To tell, it
  is enough to know the directory as it was last synced, to look at it after each command, and
  to know which commands synced it (`Claims.RunAny`, `Claims.LossExclusive`). On a
  filesystem that persists directory operations in order this cannot happen (`Claims.RunOrdered`).
- **Contiguous versions after a power loss.** A release that was linked but not synced can be
  lost while a file of the next version survives (`Claims.Overtaking`). Every power loss leaves
  the journal in order if and only if no version is contested as above and there is no file of
  a version whose predecessor was not released at the last sync (`Claims.LossInOrder`,
  `Claims.RunAny`). A command that starts on a synced directory never gets there by itself.
- **Records cut before their last byte.** The code tells torn files apart by whether they are
  JSON, but accepts only files that end in a newline. A command killed just before the last
  byte of a reservation or release leaves a file that no command uses and none replaces
  (`Claims.CutClaim`), and while it stays, its version is not released (`Claims.Wedged`). A
  power loss can clear it away, unless its bytes and its directory entry are on disk: no power
  loss can if and only if every directory since the last sync shows it, with synced bytes
  (`Claims.SpoiltForGood`), as after a power loss that kept it. From then on neither commands
  nor power losses do. The refusals of `Commands.Publish`, `Commands.Renew` and
  `Commands.Rotate` say exactly when they meet such a file. A binding or custody record cut
  that way stops both homes (`Provision.CutBinding`), and a run of provisioning that is left
  alone finishes if and only if neither is cut when it starts (`Provision.Retry`).
- **Resuming a journal copy.** `copyPublication` is refused exactly if the copy holds a
  temporary file with other bytes than the source's and the file itself is there already or
  listed later (`Copying.CopyPublication`). Runs that are killed and power losses can bring
  that about unless every file of the source that has a temporary file beside it has the same
  bytes as that, and is always listed on the same side of it; where directory operations
  persist in any order, always after it. This is an equivalence (`Copying.Resumes`); a
  verification receipt caught while it is replaced is a file that differs from its temporary
  file. `Copying.DifferingTwin`, `Copying.TurnedAround` and `Copying.TornBeside` are the three
  ways in which it fails.
- **Revocation heard by the session.** If saving a checkpoint fails in its very last file
  operation, after the rename, the disk has revoked the accepted manifest but the session keeps
  its view until the refresh returns (`TrustClient.UnheardRevocation` runs it). That is the
  only such case: `TrustClient.Client.Checkpoint` gives it as a condition on the call.
- **A state directory without a state.** A client that dies between creating its directory and
  renaming its first state into place is refused from then on, whatever is tried. If it dies
  after the rename and before the directory sync, the next opening succeeds, but a power loss
  until then brings about the same (`TrustClient.Client.Open` has both as equivalences,
  `TrustClient.Stillborn` runs them).
- **Pagination and the empty key.** A walk drops keys if and only if pages hold one key, the
  prefix is empty, and at the first request the empty key is stored and there are other keys:
  the cursor after the empty key looks like the end (`Pagination.ListAllKeys`,
  `Pagination.ListFixed`).

## Model

| member | source | states |
|---|---|---|
| `Install.Store.Install` | internal/omega/store.go:202-267 | wherever it is killed, only the final name and its temporary name were touched, existing contents are unchanged, the final name shows the whole value or nothing; refused exactly if other bytes are there; at most eight file operations |
| `Install.Store.InstallNew` | internal/omega/store.go:211-266 | the states it can be killed in are the nine disk states of one path and, if the write is cut, one more; success is the last of them |
| `Install.InstallPathSafe` | internal/omega/store.go:202-267 | each of these states shows no torn value under a final name, now or after any power loss |
| `Install.Store.SyncDir` | internal/omega/store.go:191-197 | either nothing happened or the directory as seen is the only one a power loss can leave |
| `Install.Store.InstallAndSync` | internal/omega/store.go:191-267 | success makes exactly this value durable under every outcome of a power loss |
| `Install.InstallKeepsDurable` | internal/omega/store.go:202-267 | no install, of the same name or another, killed anywhere, changes or loses a durable value |
| `Install.Store.CleanPending` | internal/omega/store.go:271-282 | touches only the temporary names given and, when done, has durably removed them all |
| `Install.Store.RemoveTwin` | internal/omega/publication_store.go:404-421 | at every kill point only the temporary entry may be gone, and its final object stays |
| `Install.Store.CleanPendingTwins` | internal/omega/publication_store.go:374-424 | removes only temporary files that repeat their final object; when done none of those is left |
| `Install.CleaningKeepsDurable` | internal/omega/publication_store.go:374-424 | cleaning temporary files never touches a durable final name |
| `Install.Store.WriteObject` | internal/omega/publication_store.go:223-297 | at every kill point the name shows what it showed or exactly the new bytes; immutable objects are refused exactly if they differ and are never altered; success is durable |
| `Install.Store.WriteTemporary` | internal/omega/publication_store.go:239-274 | the final name is untouched and, when done, the temporary file is whole and synced; done exactly with enough file operations, which are counted |
| `Install.Store.Expose` | internal/omega/publication_store.go:275-295 | linking or renaming the synced temporary file shows new exactly if one operation is left, and succeeds, durably, exactly if two or four are |
| `Install.WritingKeepsDurable` | internal/omega/publication_store.go:223-297 | writing one object loses no other durable object |
| `Install.Store.Run` | internal/omega/store.go:202-282 | over every run of installs, syncs, cleanings, kills and power losses, final names are never torn and durable values never change |
| `Disk.LossKeepsDurable` | internal/omega/store.go:202-267 | what is durable survives every power loss, and is durable after it |
| `Disk.LossKeepsSound` | internal/omega/store.go:202-267 | no power loss can expose a torn value under a final name |
| `Disk.FrameKeepsDurable` | internal/omega/store.go:202-267 | an operation that leaves an entry and old contents alone keeps it durable |
| `Successor.RootExpiry` | internal/omega/root_rotation.go:33-39 | the new expiry is later than the old one and at least a year after creation, and one of those two bounds is tight |
| `Successor.CheckRoleSuccessor` | internal/omega/rotation_roots.go:54-98 | the loop over the copied key map accepts exactly the roots that, with the selected roles put back, equal the previous one |
| `Successor.OnlineStep` | internal/omega/rotation_roots.go:54-98 | an online successor keeps the six-key shape and rotates only the online roles exactly when the two new keys differ |
| `Successor.GroupsExclude` | internal/omega/rotation_roots.go:41-52 | no root rotates two groups, so the order in which the classification tries them does not matter |
| `Successor.SuccessorKeepsShape` | internal/omega/rotation_roots.go:41-98 | every classified successor is well shaped, and rotates exactly its group, if and only if it does not share one online key |
| `Rotation.RotationStep` | internal/omega/rotation_roots.go:217-257 | an accepted record keeps six distinct keys at 2-of-3 and 1-of-1, changes exactly one group to fresh keys, drops the retired ones, and is classified as its intent's group |
| `Rotation.ChainKeepsShape` | internal/omega/rotation_roots.go:194-215 | along every accepted chain each root has that shape, versions are consecutive and expiry never decreases |
| `Rotation.RevokeQuorum` | internal/omega/rotation_store.go:152-156 | revoking key by key leaves the root role empty and removes exactly the three old keys |
| `Rotation.AddQuorum` | internal/omega/rotation_store.go:157-161 | adding key by key gives the root role exactly the three new keys |
| `Rotation.BuildSuccessor` | internal/omega/rotation_store.go:145-175 | for every valid intent a successor of the intent's kind is built, carrying exactly the intent's keys and expiry |
| `Rotation.FinishRotation` | internal/omega/rotation_store.go:145-222 | succeeds exactly with enough signers; what it records is what `readRotation` accepts, well shaped, and classified as the intent's role |
| `Preparation.Keep` | internal/omega/rotation_store.go:109-114 | one of the two files of a preparation becomes durable; the other and everything durable stay, wherever it is killed |
| `Preparation.Choose` | internal/omega/rotation_store.go:118-207 | a signed record that is there is kept and never made again; otherwise one is signed, exactly if there are enough keys |
| `Preparation.Sign` | internal/omega/rotation_store.go:118-222 | refused exactly if what is there is no good or nothing can be signed; otherwise the record is durable and reading it back is accepted |
| `Preparation.FinishRotation` | internal/omega/rotation_store.go:109-222 | unless killed, refused exactly for the stated reasons; success leaves intent and record durable, accepted by every later reader and classified as the intent's role |
| `Generations.ChainGenerations` | internal/omega/rotation_roots.go:194-257 | in every accepted chain a rotation leaves the other groups alone and its intent names exactly the keys its own group ends up with |
| `Generations.ActiveOnlineKeys` | internal/omega/rotation_roots.go:259-284 | the newest-first scan returns exactly the snapshot and timestamp keys the current root authorises |
| `Generations.ActiveMembershipKey` | internal/omega/membership_rotation.go:181-199 | the newest-first scan returns exactly the targets key the current root authorises |
| `Generations.ActiveRootKeys` | internal/omega/root_rotation.go:184-212 | the oldest-first scan ends with exactly the three root keys of the current root |
| `Generations.ActiveKeys` | internal/omega/operator_keys.go:118-196 | all three at once for every chain `readRotation` accepts, whatever was rotated in whatever order |
| `Generations.SharedKeyAccepted` | internal/omega/rotation_roots.go:41-98 | the witness: a trusted chain of two roots whose second counts as an online rotation, keeps a retired key and is not well shaped |
| `Release.TrustRoots` | internal/omega/rotation_roots.go:20-39 | the loop over the evolving trusted root accepts exactly the chains of N+1 updates that are classified successors, and returns the last root |
| `Release.PrepareRelease` | internal/omega/release.go:86-126 | an offline approval succeeds exactly if the root chain, its remaining day, the manifest, the version and the three keys are in order, and is then valid |
| `Release.BeginContinued` | internal/omega/release.go:272-291 | which schema, targets and approval a continued release starts from, and when that fails |
| `Release.SignBy` | internal/omega/release.go:296-309 | signing is allowed exactly from the previous creation up to the deadline; only a new root quorum may go past the old approval |
| `Release.SignContinued` | internal/omega/release.go:292-325 | it fails only if no signing in time gives a valid release |
| `Release.PrepareContinued` | internal/omega/release.go:271-326 | a renewal or online rotation succeeds exactly if clock, keys, roots and approval permit; every result is valid and hands on manifest and approval |
| `Release.HandoffFollows` | internal/omega/release.go:328-362 | every continued release over at most one further root passes `follows` |
| `Release.RenewalSigned` | internal/omega/release.go:131-213 | a signed renewal passes `validate` exactly if it is timely, its roots are trusted, the approval stands and the root accepts both online keys |
| `Release.PrepareRenewal` | internal/omega/release.go:256-258 | succeeds exactly for a valid previous release in its approval window, below the version limit, with accepted keys; the result passes `validate` and `follows` |
| `Release.PrepareMembership` | internal/omega/release.go:264-269 | a targets-key handoff succeeds exactly if the unchanged approval is signed by the new key in time; the result passes `validate` and `follows` |
| `Release.PrepareRootHandoff` | internal/omega/rotation_store.go:354-356 | a root handoff succeeds exactly if the unchanged membership is approved anew under a root with a day left; the result passes `validate` and `follows` |
| `History.LoadReleases` | internal/omega/publication_store.go:426-472 | accepts exactly the contiguous, chained and valid histories, and returns what the files hold |
| `History.AppendAccepted` | internal/omega/publication_store.go:447-468 | exactly the valid releases that follow the last one can be appended |
| `History.ExpiryOrder` | internal/omega/release.go:189-210 | timestamp, snapshot, targets and root expire in that order, and targets at most ninety days after the approval |
| `History.LastApprovalApproves` | internal/omega/release.go:247-252 | the last approval is a schema 1, 3 or 6 release and everything after it is of schema 2, 4 or 5 |
| `History.ApprovalPreserved` | internal/omega/release.go:328-362 | no run of renewals, online and membership-key rotations changes the manifest, the approval time or the targets expiry, or moves any expiry past ninety days after the approval |
| `History.OnlyPublicationChangesManifest` | internal/omega/release.go:328-362 | not even a root transition changes the manifest |
| `History.RootsGrow` | internal/omega/release.go:328-362 | along a history the root list only grows and creation times never go back |
| `History.TargetsOrigin` | internal/omega/release.go:239-245 | the targets file of every release is the one its targets version was first published with |
| `History.ObjectsOf` | internal/omega/release.go:215-228 | the object list of a release is exactly its roots, manifest, targets and snapshot under their names |
| `History.ObjectsAgree` | internal/omega/release.go:215-245 | two releases of one history that name the same object carry the same bytes |
| `History.CollectObjects` | internal/omega/vercel.go:269-279 | reports a conflict exactly if there is one, and otherwise holds exactly the named objects |
| `History.AcceptedHasNoConflict` | internal/omega/vercel.go:269-290 | an accepted history has no immutable conflict |
| `History.RetainedBytes` | internal/omega/vercel.go:269-280 | the collected objects with the latest timestamp; never fails on an accepted history |
| `History.SortObjects` | internal/omega/vercel.go:281-289 | each collected object once, strictly in the order of the file names |
| `History.RetainedObjects` | internal/omega/vercel.go:269-290 | never fails on an accepted history; the result is exactly every object of every release and the latest timestamp, each once, in the order of the file names |
| `History.AuthorisedSigners` | internal/omega/renewal_custody.go:64-88 | the keys the scan of the rotation history picks are signers the root accepts |
| `History.Renew` | internal/omega/release.go:256-326 | every accepted history below the limit is extended, at every time from its latest creation up to targets expiry, to an accepted history under the same approval |
| `Journal.GoodExclusive` | internal/omega/publish.go:146-151 | a journal in order gives each version to at most one of approval, renewal and rotation |
| `Journal.GoodContiguous` | internal/omega/publication_store.go:426-472 | below every file of the journal there is a release for every version |
| `Journal.InstallKeepsInv` | internal/omega/store.go:202-267 | an install of a record that is in place, killed anywhere, leaves every possible directory in order |
| `Journal.InstallKeepsLined` | internal/omega/store.go:202-267 | the directories since the last sync agree on committed files, and nothing in them was signed before its reservation was on disk |
| `Journal.CleaningKeepsInv` | internal/omega/publication_store.go:374-424 | removing temporary files leaves every possible directory in order |
| `Journal.OrderedLossKeepsInv` | internal/omega/store.go:202-267 | a power loss that keeps directory operations in order never breaks the journal |
| `Journal.LossKeepsInv` | internal/omega/store.go:202-267 | an unordered one does not either while every mixture of recent entries is in order |
| `Journal.NextUnique` | internal/omega/publication_store.go:426-472 | there is one next version |
| `Journal.Latest` | internal/omega/publication_store.go:426-472 | counting upward finds every release |
| `Commands.Put` | internal/omega/store.go:202-267 | a record in place is installed over nothing but an incomplete write; complete JSON, durable records and other files stay, wherever it is killed |
| `Commands.PutAndSync` | internal/omega/renew.go:202-210 | the record is durable before anything is signed under it |
| `Commands.Discard` | internal/omega/renew.go:182-189 | giving a torn reservation back keeps the journal in order wherever it stops, and is synced unless it is killed |
| `Commands.Settle` | internal/omega/publish.go:231-253 | success makes every record of the journal durable and changes none |
| `Commands.Publish` | internal/omega/publish.go:57-229 | refused exactly if a check fails, or the version is out of turn, reserved, spoilt, or approved with another manifest, and then changes nothing; success makes the approval durable |
| `Commands.TakeTurn` | internal/omega/publish.go:136-145 | the version is repeated, claimed or refused according to what the journal holds |
| `Commands.PlanApproval` | internal/omega/publish.go:146-220 | the approval to record is the pending one or a new one, and there is one exactly if none of the refusals applies |
| `Commands.Approve` | internal/omega/publish.go:146-226 | claims the next version with that approval; never replaces a pending one |
| `Commands.ReserveApply` | internal/omega/rotation_store.go:224-289 | refused exactly for the stated reasons; a recorded application stays, otherwise the given one is recorded; a root rotation keeps a torn reservation |
| `Commands.ClaimApply` | internal/omega/rotation_store.go:286-288 | the application recorded is the given one |
| `Commands.CommitApply` | internal/omega/rotation_store.go:330-338 | the recorded application is durable before anything is signed under it |
| `Commands.PrepareHandoff` | internal/omega/membership_rotation.go:204-305 | refused exactly if no offline application is recorded or a check fails; keeps the application and leaves a complete targets handoff |
| `Commands.SignHandoff` | internal/omega/membership_rotation.go:235-303 | a signature that is there is kept, otherwise exactly one is made |
| `Commands.TakeHandoff` | internal/omega/membership_rotation.go:341-357 | the complete offline signature is made durable; refused exactly if there is none or it is invalid |
| `Commands.PendingAgrees` | internal/omega/rotation_store.go:339-383 | a signed release that was not committed is the one that will be signed again |
| `Commands.FinishApply` | internal/omega/rotation_store.go:339-383 | records the release the application determines; refused exactly for want of the offline signature or of something valid to sign, or over a spoilt release |
| `Commands.CompleteApply` | internal/omega/rotation_store.go:330-383 | commits the application and then records its release |
| `Commands.ResumeApply` | internal/omega/rotation_store.go:294-384 | resumes exactly if an application is recorded, under that record, and is refused exactly if it is incomplete, a check fails or it cannot be finished |
| `Commands.Rotate` | internal/omega/rotation.go:226-253 | unless killed, refused exactly for the stated reasons; success is a durable release under the recorded or the new application of the next version |
| `Commands.RotateNext` | internal/omega/rotation.go:226-253 | the same for one version: reserve, sign the handoff, record |
| `Commands.PlanRenewal` | internal/omega/renew.go:143-201 | what to do about the next version: declined exactly for the stated reasons, otherwise wait, or sign under the reservation that is there or a new one |
| `Commands.ReserveRenewal` | internal/omega/renew.go:143-210 | carries that out; the reservation is durable, or nothing changed |
| `Commands.CommitIntent` | internal/omega/renew.go:202-210 | the reservation is durable before the release is signed |
| `Commands.SignRenewal` | internal/omega/renew.go:211-224 | records the release the reservation determines; refused exactly if it cannot be signed or a spoilt release is in the way |
| `Commands.RenewNext` | internal/omega/renew.go:143-224 | the release recorded is the one the reservation determines; refused exactly for the stated reasons |
| `Commands.Renew` | internal/omega/renew.go:30-226 | first finishes a recorded application, then renews under the recorded or a new reservation; unless killed, refused exactly for the stated reasons; on success everything is durable |
| `Commands.Execute` | internal/omega/publish.go:57-229 | whatever command, wherever it stops: the journal is in order, durable records and complete JSON stay, no file shows up in passing, and it changed nothing or left the directory synced unless it was killed |
| `Claims.LossExclusive` | internal/omega/rotation_store.go:325-329 | for all three pairs: no power loss can leave a version to two commands exactly if no two have claimed one version in the directories since the last sync |
| `Claims.LossInOrder` | internal/omega/publication_store.go:426-472 | every power loss leaves the journal in order exactly if there are no such rivals and no file runs ahead of a release since the last sync |
| `Claims.SeenRivals` | internal/omega/renew.go:182-189 | rivals since the last sync are exactly a claim taken away by a command that died and another claim since, as seen between commands |
| `Claims.SeenAhead` | internal/omega/store.go:249-260 | running ahead is exactly a file, as seen between commands, of a version whose predecessor was not released at the last sync |
| `Claims.RunAny` | internal/omega/renew.go:129-198 | over every run of the commands as they are, with kills and any power losses: contiguous versions, no version claimed twice, each release what its reservation determines, no durable record changed, up to a power loss in a state that the seen directories tell; and exactly in those states can a power loss break it |
| `Claims.RunOrdered` | internal/omega/rotation_store.go:224-289 | with ordered power losses there is no exception |
| `Claims.EmptyJournal` | internal/omega/publication_store.go:299-359 | a new journal directory satisfies everything the commands rely on |
| `Claims.Displacement` | internal/omega/rotation_store.go:269-276 | the witness for each ordered pair of commands: a torn claim removed without a sync, another claim, and a power loss that leaves both |
| `Claims.Overtaking` | internal/omega/store.go:249-260 | the witness: a release linked but not synced is lost while the next version's file survives |
| `Claims.SpoiltForGood` | internal/omega/authority.go:718-735 | no power loss can clear a file away that lacks only its last byte if and only if every directory since the last sync shows it, with synced bytes |
| `Claims.Wedged` | internal/omega/authority.go:718-735 | such a file stays through every run of the commands, and its version is not released; if no power loss can clear it away to begin with, through every power loss as well |
| `Claims.CutClaim` | internal/omega/store.go:234-238 | the witness for each command: killed before the last byte of its claim it leaves such a file, which a power loss can make permanent or clear away |
| `Publishing.PutObject` | internal/omega/publish.go:289-296 | one object, never refused, killed anywhere: whatever timestamp is visible stays fully backed and nothing served is lost |
| `Publishing.PutObjects` | internal/omega/publish.go:289-296 | success serves every object of the latest release and leaves the timestamp alone |
| `Publishing.CheckTimestamp` | internal/omega/publish.go:338-357 | accepts exactly an absent timestamp or that of a recorded release |
| `Publishing.PutTimestamp` | internal/omega/publish.go:297-312 | the visible timestamp is the one that was there or that of the latest release, and its objects are served |
| `Publishing.CleanRepository` | internal/omega/publish.go:284-288 | dropping leftovers keeps every object and the timestamp |
| `Publishing.PublishPrepared` | internal/omega/publish.go:254-312 | wherever it stops, a visible timestamp is backed by every object it names; refused exactly if the timestamp has expired at the start or before it is written; success makes the latest timestamp durable |
| `Publishing.NeverRefuses` | internal/omega/publication_store.go:223-297 | an object that is in the way always has the same bytes |
| `Publishing.LossKept` | internal/omega/publish.go:289-312 | every power loss of both directories keeps timestamps backed and objects served |
| `Publishing.Serve` | internal/omega/publish.go:231-334 | over every run of growing history, publishing, kills and power losses a client that sees a timestamp finds every object it names with the recorded bytes |
| `Copying.CopyPublication` | internal/omega/renewal_custody.go:331-402 | refused exactly if a temporary file with other bytes is in the way; resumes any other unfinished copy, the copy reads back as the source, and when done the journal is exactly the source history on stable storage |
| `Copying.FinishCopy` | internal/omega/renewal_custody.go:398-401 | only twins go, and the complete copy becomes durable |
| `Copying.AtTemp` | internal/omega/renewal_custody.go:376-390 | when a run comes to a temporary file, it is in the way exactly if it was so when the run began |
| `Copying.Resumes` | internal/omega/renewal_custody.go:331-402 | over every sequence of killed runs and power losses, for every source and every way of listing it: no run is refused if and only if twins have the same bytes and are listed the same way round, always temporary-first where power losses are unordered |
| `Copying.TraceStaged` | internal/omega/renewal_custody.go:331-402 | what every state of such a sequence looks like |
| `Copying.DifferingTwin` | internal/omega/publication_store.go:476-509 | the witness: a receipt whose temporary file has other bytes; a run killed after the link is refused ever after |
| `Copying.TurnedAround` | internal/omega/renewal_custody.go:372-390 | the witness: the listing turns around between two runs |
| `Copying.TornBeside` | internal/omega/renewal_custody.go:386-388 | the witness: an unordered power loss brings a torn temporary file back beside the copied file |
| `Provision.Admits` | internal/omega/renewal_custody.go:187-196 | what is there may be carried on with exactly if it was not cut before its last byte |
| `Provision.Fence` | internal/omega/renewal_custody.go:264-269 | success makes the binding of the authority home durable |
| `Provision.Commit` | internal/omega/renewal_custody.go:282-287 | success makes the custody record durable |
| `Provision.HandOver` | internal/omega/renewal_custody.go:245-288 | the source is durably fenced before the operational home can allocate; a committed handoff is not copied over |
| `Provision.ProvisionRenewal` | internal/omega/renewal_custody.go:142-327 | killed anywhere the same holds; refused exactly if a record is cut or a temporary file is in the way of the copy; otherwise it finishes with enough file operations |
| `Provision.CleanHomes` | internal/omega/renewal_custody.go:292-297 | dropping the temporary twins keeps the fence and both records |
| `Provision.Retry` | internal/omega/renewal_custody.go:142-327 | for every source that can be resumed, over every sequence of killed runs, cut writes and power losses of all three directories: a run left alone finishes if and only if neither record is cut when it starts, and then exactly one home allocates, from exactly the fenced history; if nothing is ever cut, none is |
| `Provision.AtMostOneAllocates` | internal/omega/renewal_custody.go:107-136 | at every point and after every power loss of either home at most one can allocate |
| `Provision.LossStaged` | internal/omega/renewal_custody.go:331-402 | a copy whose source can be resumed still can after a power loss of the kind in question |
| `Provision.CutBinding` | internal/omega/renewal_custody.go:187-196 | the witness: a binding cut before its last byte; the fence holds, neither home allocates and every run is refused |
| `Provision.CutForGood` | internal/omega/renewal_custody.go:187-196 | while a record is cut, no number of runs changes anything |
| `Publication.ReadHistory` | internal/omega/publication_store.go:426-472 | reads what the journal's release files say, all of them, in order |
| `Publication.PublishSettled` | internal/omega/publish.go:231-312 | wherever it stops, the repository is backed by a history all of which is durable in the journal; success makes the latest release public |
| `Publication.Run` | internal/omega/publish.go:57-334 | over every run of commands, publications, kills and power losses of journal and repository together, the same, up to an unordered power loss of a journal with a contested or overtaken version |
| `Publication.EndToEnd` | internal/omega/publish.go:289-312 | whatever timestamp a client sees after a power loss, its release is durable in the journal and every object it names is served with the recorded bytes |
| `TrustClient.Verify` | internal/trust/bootstrap/client.go:293-344 | a view is the accepted metadata and manifest, authentic, and before the earliest of the four expiries |
| `TrustClient.Current` | internal/trust/bootstrap/client.go:129-150 | a view has the root and targets of the checkpointed metadata |
| `TrustClient.Client.Save` | internal/trust/bootstrap/state.go:196-249 | the new state is visible exactly if at most the last file operation is missing, and durable exactly if none is; otherwise the old one is; a first save leaves no trace exactly if it fails before its rename, and can be lost exactly if it fails |
| `TrustClient.Client.Load` | internal/trust/bootstrap/state.go:145-182 | what is loaded is well formed and accepts nothing under other root or targets |
| `TrustClient.Client.Checkpoint` | internal/trust/bootstrap/client.go:258-291 | a checkpoint that changes root or targets drops the accepted manifest and the session's view; a view the disk no longer supports is left exactly if such a checkpoint fails in its last file operation |
| `TrustClient.Client.Refresh` | internal/trust/bootstrap/client.go:156-256 | a manifest is accepted exactly if every checkpoint is well formed, the updater finished and the documents verify; the resulting state |
| `TrustClient.Client.SessionRefresh` | internal/discovery/session.go:96-115 | afterwards the session's view is exactly what the disk supports |
| `TrustClient.Client.SessionCurrent` | internal/discovery/session.go:83-92 | returns an unexpired view that the disk still supports, or none |
| `TrustClient.Client.Open` | internal/trust/bootstrap/client.go:108-121 | a state is written only into a directory this call creates; an existing one is opened exactly if it has a state, and offers exactly what that supports; exactly when a first opening that dies leaves a directory that will never have a state, or that a power loss can leave so |
| `TrustClient.Client.Run` | internal/discovery/session.go:58-115 | over every run of refreshes, failures, restarts and power losses the accepted manifest has the checkpointed root and targets, and so has the session's view; a directory left without a state stays so |
| `TrustClient.RevokedStaysRevoked` | internal/trust/bootstrap/client.go:188-209 | after a revocation no number of checkpoints brings a view back |
| `TrustClient.AcceptedSurvives` | internal/trust/bootstrap/client.go:278-283 | the accepted manifest survives the checkpoints of a refresh exactly while root and targets stay the same |
| `TrustClient.LossTrusted` | internal/trust/bootstrap/state.go:196-249 | no power loss leaves a state that accepts a manifest under other root or targets |
| `TrustClient.UnheardRevocation` | internal/trust/bootstrap/client.go:188-209 | the witness, run: a checkpoint that fails in its last file operation leaves a view that the disk no longer supports |
| `TrustClient.Stillborn` | internal/trust/bootstrap/client.go:108-121 | a first opening that dies before its rename, and any run after it: never a state, never a view; one that dies after its rename can be opened, until a power loss |
| `Stream.MemoryStore.Put` | internal/storage/memory.go:47-81 | refused exactly over capacity; otherwise the entry, its revision and one event to every subscriber that can take it |
| `Stream.MemoryStore.Get` | internal/storage/memory.go:83-99 | finds exactly the live entries, with their bytes |
| `Stream.MemoryStore.CleanupExpired` | internal/storage/memory.go:133-145 | keeps exactly the live entries and tells every remaining subscriber of each expired one |
| `Stream.MemoryStore.Expire` | internal/storage/memory.go:139-143 | one entry goes, the byte count follows, and the event goes to every subscriber that can take it |
| `Stream.MemoryStore.Publish` | internal/storage/stream.go:112-124 | every subscriber gets the event or is dropped once, no one else notices, queues stay within 64 |
| `Stream.TakeSnapshot` | internal/storage/stream.go:76-90 | lists every live entry once, and is refused exactly if one entry, their number or their total is over its limit |
| `Stream.MemoryStore.Subscribe` | internal/storage/stream.go:66-91 | each error exactly in its case; otherwise the snapshot is the live contents and registration happens in the same step |
| `Stream.MemoryStore.CloseSubscription` | internal/storage/stream.go:55-61 | closing is idempotent and leaves the other subscribers in step |
| `Stream.MemoryStore.Receive` | internal/storage/stream.go:112-124 | events are taken in order, once |
| `Stream.MemoryStore.Close` | internal/storage/memory.go:147-157 | every subscriber's done is closed exactly once |
| `Stream.MemoryStore.Run` | internal/storage/memory.go:47-157 | over every run under a monotone clock all of the store's invariants hold: bytes, capacity, at most 8 subscribers, queues of at most 64, done closed at most once, feeds in step |
| `Stream.FeedShowsStore` | sites/soph.stream/viewer.js:84-113 | whenever it looks, a registered reader's snapshot plus delivered and queued events gives exactly the previews of the live entries |
| `Stream.PutAgrees` | internal/storage/memory.go:61-79 | folding a put event keeps a feed in agreement with the store |
| `Stream.ExpireAgrees` | internal/storage/memory.go:133-145 | folding an expire event keeps a feed in agreement with the store |
| `Stream.BytesAfterPut` | internal/storage/memory.go:61-79 | the running byte count is the sum of the stored sizes |
| `Peers.Protocol.AddPeer` | internal/gossip/protocol.go:225-269 | accepts exactly the advertisements with a usable route that contradict neither a pin nor the entry in use, and never changes a route |
| `Peers.Protocol.RemovePeer` | internal/gossip/protocol.go:271-281 | the peer and its failure count go, pins stay |
| `Peers.Protocol.HandlePong` | internal/gossip/protocol.go:338-347 | clears failures only for a reply that speaks for its sender |
| `Peers.Protocol.HandleSync` | internal/gossip/protocol.go:349-375 | learns exactly an acceptable peer and changes no route |
| `Peers.Protocol.PingPeers` | internal/gossip/protocol.go:434-473 | evicts exactly the peers whose consecutive failures reach three, and counts the others |
| `Peers.Protocol.SetRootBindings` | internal/gossip/bindings.go:15-33 | moves exactly the pinned peers to the signed routes and forgets exactly the failures of those that moved |
| `Peers.Protocol.HandleBootstrap` | internal/gossip/bootstrap.go:166-202 | answers exactly an accepted node, with everything known |
| `Peers.Protocol.MergeSeeds` | internal/gossip/bootstrap.go:63-93 | adds only acceptable peers and leaves none of them out |
| `Peers.Protocol.Run` | internal/gossip/protocol.go:225-281 | over every run pinned peers keep the pinned route through eviction and rejoining, other routes change only by eviction or a signed update, and the local node is never a peer |
| `Gossip.FanoutSize` | internal/gossip/protocol.go:566-575 | the least number whose square reaches the peer count |
| `Gossip.QuorumSize` | internal/cluster/node.go:493-504 | at least one and at most the enclave with the node itself |
| `Gossip.SelectRandomPeers` | internal/gossip/protocol.go:578-593 | as many peers as asked for, or all there are, never the skipped one |
| `Gossip.EnclaveTargets` | internal/gossip/protocol.go:599-654 | a small enclave is served by the originator alone, a large one by fanout, never back to the sender |
| `Gossip.HandlePut` | internal/cluster/node.go:386-453 | exactly an unseen valid message is processed; exactly a stored one is acknowledged, once, and forwarded to the fanout |
| `Gossip.HandleSync` | internal/gossip/protocol.go:349-375 | learns exactly an accepted node and answers a request about its sender with the whole peer list |
| `Gossip.RespondWithPeerList` | internal/gossip/protocol.go:381-417 | one message for every other known node, to a known peer only |
| `Gossip.ConfirmedStorers` | internal/cluster/node.go:455-480 | the confirmations of a pending write are that many distinct nodes that stored it, the originator among them |
| `Gossip.Cluster.Deliver` | internal/gossip/protocol.go:294-316 | every delivery lowers the measure (unseen pairs, then weighted messages) by at least the number of messages it sends |
| `Gossip.Cluster.DeliverPut` | internal/cluster/node.go:386-453 | a PUT is stored at most once per node and keeps acknowledgements honest |
| `Gossip.Cluster.DeliverAck` | internal/cluster/node.go:455-480 | a write is decided exactly when its count reaches the quorum at that step, and then a quorum of nodes stores it |
| `Gossip.Cluster.StartPut` | internal/cluster/node.go:279-350 | stores locally, succeeds at once exactly if one node is enough, otherwise waits with one confirmation and sends to its targets |
| `Gossip.Cluster.EndPut` | internal/cluster/node.go:331-349 | giving up a write loses no stored copy |
| `Gossip.Cluster.Forget` | internal/gossip/protocol.go:465-472 | evicting a peer shrinks later quorums but loses no stored copy |
| `Gossip.Cluster.Settle` | internal/gossip/protocol.go:294-417 | any finite set of messages, delivered in any order, provokes at most a number of sends known in advance |
| `Gossip.Cluster.Run` | internal/cluster/node.go:279-504 | over every run of writes, deliveries, losses, timeouts and evictions, each reported success is stored by at least the quorum computed at the deciding step, the originator among them, to the end |
| `Gossip.Cluster.Happen` | internal/cluster/node.go:279-480 | a step reports success exactly if it decides a write, and stored copies are never lost |
| `Strings.OneOrder` | cmd/server/main.go:721-771 | two sorted lists with the same elements are the same list |
| `Strings.SortedSame` | internal/trust/signedlist.go:147-165 | sorting gives the same list exactly for the same elements, counted |
| `Pagination.Search` | cmd/server/main.go:738-746 | the binary search finds where a key belongs |
| `Pagination.Sort` | cmd/server/main.go:735-737 | strictly increasing with exactly the given keys |
| `Pagination.Filter` | cmd/server/main.go:724-733 | exactly the keys with the prefix |
| `Pagination.Cut` | cmd/server/main.go:748-760 | the first keys up to the limit, and a cursor exactly if there are more |
| `Pagination.Keys` | cmd/server/main.go:721-771 | one page holds, in order, the matching keys after the cursor up to the limit, and a cursor exactly if there are more |
| `Pagination.ListAllKeys` | internal/client/client.go:328-345 | over a store that changes between requests: strictly increasing, none that was never live, every page full until the last, and every matching key live throughout exactly once if and only if the empty key does not swallow the rest |
| `Pagination.ListFixed` | internal/client/client.go:328-345 | on a fixed store the walk terminates with exactly the sorted matching keys, if and only if the empty key does not swallow the rest |
| `Base64.RoundTrip` | internal/trust/signedlist.go:169-172 | decoding an encoded signature gives it back |
| `SignedList.SplitAndTrim` | internal/trust/signedlist.go:229-239 | the loop keeps exactly the non-empty trimmed parts, in order |
| `SignedList.Parse` | internal/trust/signedlist.go:66-142 | the loop over the fields computes `Parsed`, and whatever it accepts is well formed |
| `SignedList.ParsedWellFormed` | internal/trust/signedlist.go:66-142 | an accepted list has a trimmed version, a 64-bit expiry and non-empty trimmed nodes without separators |
| `SignedList.IntRoundTrip` | internal/trust/signedlist.go:147-165 | every 64-bit expiry is printed so that it parses back |
| `SignedList.RoundTrip` | internal/trust/signedlist.go:147-172 | printing and parsing a well-formed list gives it back with its nodes sorted |
| `SignedList.ParseEncodeParse` | internal/trust/signedlist.go:66-172 | for every string that parses, printing and parsing again succeeds and changes only the node order |
| `SignedList.CanonicalUpToOrder` | internal/trust/signedlist.go:147-165 | two lists have the same signed text exactly if they agree up to the order of their nodes |

## Left out

- Cryptography, age encryption, passphrases, and the encrypted variants of authority and rotation preparation: they follow the same reserve-then-sign protocol as the plain form.
- File ownership, modes, symbolic links, ancestor checks and operating-system locks; commands are sequential.
- Vercel deployment, HTTP fetching and hosted verification; of `internal/omega/vercel.go` only the object collection is modelled.
- go-tuf internals, which appear only as predicates for the workflow steps.
- Creating the repository's `targets` directory; both directories exist from the start.
- The contents of releases inside the journal: `Journal` records what a release was determined by, `Release` and `History` say what it contains.
- Verification receipts in the journal directory, and the private keys and custody files of prepared rotations.
- Re-running an applied rotation, which only publishes again.
- Commands.Execute: checks of clocks, keys, signatures, custody and receipts are parameters, one for each point at which they are made; a failure after the release is recorded counts as a kill.
- Copying.CopyPublication: an incomplete write never happens to equal a file of the source; opening the two journals and validating the source's history before the copy are not modelled.
- Provision.Retry: the source journal itself is taken as durable.
- Gossip.Cluster.Run: keeps every dedup entry; expiry and capacity eviction of the cache, and acknowledgements routed over WebSocket, are not modelled.
- Gossip.HandlePut: verification, enclave checks and store errors are one outcome each, chosen by the environment.
- Stream.MemoryStore.Put: revisions are unbounded, without 64-bit wrap-around.
- Parsing of URLs and addresses: an origin parser is a parameter of `Peers`, and signed bindings are canonical.
- Signing and verifying signed lists, and strings that are not valid UTF-8.
- Tree and WebSocket transports, dashboards, command-line tools, metrics, logging and report texts.
