# Verification of the trash, restore and purge protocol of Safebucket

Safebucket keeps the folders and files of a bucket in database tables, the contents of files in an
object storage, and moves whole folders to the trash and back asynchronously: a service call changes
one row and publishes an event, and an event worker walks the folder tree one level per delivery, in
batches. The object storage expires trash markers on its own and reports that back. This project is a
model of that system in Dafny, with proofs of what it guarantees over every run, and exact conditions
where it guarantees less. Smaller models cover marker paths, bucket sharing, lifecycle rules, directory
uploads, rate limiting and the enrichment of activity logs.

`dafny verify dfyconfig.toml` checks everything.

## How the model is built

| files | content |
|---|---|
| `basics`, `tables`, `store` | rows, tables, ancestors; database, objects, markers and queue of one bucket as a value |
| `parent_folders` | `RestoreParentFolders`: the climb and the root-first revival |
| `bucket_folder`, `bucket_file` | each service call as a function from state to state and reply |
| `folder_trash`, `folder_restore`, `folder_purge`, `trash_expiration` | each event callback as a function of the state and the batches the database picked |
| `replies` | what the replies of the service calls mean |
| `protocol` | the transition system: every service call, every delivery, and what the storage does by itself |
| `backend`, `services`, `worker` | the same operations as methods that change a store in place, each proved to do what its function says |
| `effects` | what each step does to each row, key, message and report |
| `invariants`, `names`, `data_safety`, `trash_cover`, `stale_notices`, `marker_laws`, `bottom_up`, `runs` | what steps and whole runs keep |
| `concrete_runs` | reachable states in which the guarded properties fail or a cascade never ends, and one in which the round trip applies |
| `trash_run`, `restore_run`, `purge_run`, `round_trip`, `drain` | complete runs of one cascade: exact length, progress, end state, round trip |
| `strings`, `trash_marker` | the object keys of markers |
| `shared_buckets`, `bucket_member`, `sharing_runs` | members and invites of a bucket |
| `lifecycle` | the lifecycle merge of the three storage back ends |
| `drag_drop` | flattening and rebuilding a dropped directory tree |
| `rate_limit`, `activity` | the fixed-window limiter; cached enrichment of logs |

A step of `Protocol` is one service call, one delivery of one message, or one act of the storage, and is
atomic. A delivery is enabled when its message is pending; its batches are any subsets that a `LIMIT`
query without an order may return. A callback that returns an error leaves its message pending. Removing
a key that is there makes the storage report it: the report is pending until it is handled, may arrive at
any time after its cause, and may be repeated. The activity log may refuse an entry; where the code
rolls back its transaction then, the effects on the object storage stay.

`Config.schema` says whether the database enforces what its migration says about folders and files
(`internal/database/migrations/00001_initial_migration.sql`, lines 95-97, 109-111, 132-134 and 148-150):
hard-deleting a folder detaches the rows below it, and a write that leaves two live folders, or two live
files, of one parent with one name is refused, which makes the callback fail. `internal/database/sql.go`
applies that migration at start-up, so the running system has the schema; without it the model shows
what the checks in the code do by themselves.

## Findings

- A folder that is being restored while one of its ancestors is trashed comes to life inside the trash,
  with no message left that would put it back (`ConcreteRuns.LiveFolderInTrash`). `TrashCover.CoverKept`
  says exactly when a step can do that.
- `FolderTrash` takes files whose upload has not arrived, and a later `FolderRestore` calls them uploaded
  (`ConcreteRuns.UploadedWithoutObject`). A purge that is rolled back has already removed the object
  (`ConcreteRuns.RowWithoutObject`). `DataSafety.StoredKept` shows these are the only two ways to a
  file without its object.
- `RestoreFolder` does not look at the names below the folder. When two files, or two folders, that belong
  into one folder of the subtree share a name, the call is accepted and the folder is `restoring` for
  ever (`ConcreteRuns.EndlessRestore`); meanwhile trashing and restoring it again are refused
  (`Replies.RefusedMeanwhile`, `Replies.OneAtATime`). `RestoreRun.RestoreDrainsExactly` is the exact
  condition, to be checked before the call.
- `RestoreFile` brings back the trashed folders above its file, but not what else is in them. While a
  folder further up is `restoring`, that takes an inner folder from the cascade: `FolderRestore` no longer
  finds it, brings the outer folder to life and acknowledges, and the other files of the inner folder
  stay in the trash until their markers expire (`ConcreteRuns.FileLeftBehind`). `BottomUp.CompleteKept`
  says exactly which steps can do that; in runs without them an acknowledged restore has brought back the
  whole subtree (`BottomUp.AcknowledgedMeansWhole`).
- When a live folder was left behind in a trashed one and another live folder of its name is at the top
  level, purging the trashed one never ends, because detaching would bring them together
  (`ConcreteRuns.EndlessPurge`; `PurgeRun.PurgeDrainsExactly` is the exact condition).
- A report about a marker that a restore removed, when it arrives after the file has been trashed again,
  destroys the file although its new marker has not expired (`ConcreteRuns.StaleNotice`;
  `StaleNotices.EarlyLossExactly` is the exact condition). The comment in `trash_expiration.go:196-206`
  describes the re-check of the row as telling a restore from an expiration; the re-check cannot see
  this. `StaleNotices.NoStaleKept` gives the guard: a file must not be trashed while a report about an
  earlier marker of it is pending. A round trip leaves such a report behind for every marker it put
  (`RoundTrip.TrashThenRestore`).
- The RustFS back end keeps an up-to-date trash rule that has been disabled
  (`RustFsLifecycle.EnabledTrashRule`).
- The rate limiter serves fewer requests in 60 seconds than twice its limit: at most one less, and that
  many can be reached (`RateLimit.LessThanTwiceTheLimit`, `RateLimit.BoundIsReached`).

## Model

| member | source | states |
|---|---|---|
| `ParentFolders.CollectTrashed` | internal/helpers/folder.go:31-46 | the climb ends, because no folder is its own ancestor, and collects the trashed folders on the chain, nearest first |
| `ParentFolders.RestoreParentFolders` | internal/helpers/folder.go:17-104 | fails exactly when a trashed ancestor would come back next to a live folder of its name; otherwise all trashed ancestors that are not being restored are revived, nothing else changes, and they are returned root first |
| `ParentFolders.ParentsAreBack` | internal/helpers/folder.go:61-102 | after a success every ancestor is live or being restored, the rest of the table is untouched, and a second call finds nothing to do |
| `ParentFolders.RevivedAboveDoNotClash` | internal/helpers/folder.go:71-85 | checking a folder's name in the half-restored table is the same as checking it in the original one |
| `Replies.CreatedFolder` | internal/services/bucket_folder.go:59-107 | below a live parent a folder is created if and only if live sibling names stay distinct with it, which is what the unique index demands; then it is the only change, otherwise there is none |
| `Replies.RenamedFolder` | internal/services/bucket_folder.go:123-155 | a live folder is renamed if and only if live sibling names stay distinct; nothing but its name changes |
| `Services.BucketFolderService.TrashFolder` | internal/services/bucket_folder.go:218-250 | reply and whole new state: one row, one marker, one message |
| `Services.BucketFolderService.RestoreFolder` | internal/services/bucket_folder.go:300-381 | reply and whole new state, with the parents revived and unmarked; every refusal, an expired folder included, leaves the state alone |
| `Effects.FolderRestored` | internal/services/bucket_folder.go:300-381 | every reply in terms of the state before; an accepted restore sends the folder on its way and brings back exactly the trashed folders above it that are not on theirs; neither it nor any of them keeps a marker, and every other marker, row, object and message stays |
| `Replies.UploadedFile` | internal/services/bucket_file.go:54-122 | below a live folder, or at the top, a file is accepted if and only if live file names stay distinct with it; then the `uploading` row is the only change, otherwise there is none |
| `Services.BucketFileService.TrashFile` | internal/services/bucket_file.go:216-288 | reply and whole new state; when the object is missing or the log refuses, the row is rolled back and only a written marker stays |
| `Services.BucketFileService.RestoreFile` | internal/services/bucket_file.go:315-412 | reply and whole new state, with the parents revived; refusals leave the state alone |
| `Effects.FileRestored` | internal/services/bucket_file.go:315-412 | the same for a file, which is back at once |
| `Replies.PurgedFile` | internal/services/bucket_file.go:415-483 | an accepted purge leaves no row, object or marker of the file; one that the log refuses leaves the row, with a report pending that removes it too, if there was an object; no trace of another file changes |
| `Replies.OneAtATime` | internal/events/folder_restore.go:354-390 | it stays on its way over every step of the system, until a delivery of its own message brings it to life or a purge removes it |
| `Replies.RestoredInTime` | internal/services/bucket_folder.go:318-360 | an accepted restore is within the retention period, next to no live namesake, and leaves no ancestor in the trash except those being restored |
| `Worker.TrashCallback` | internal/events/folder_trash.go:72-245 | for some batches that the queries may return: exactly the rows, markers and messages of one delivery, and no error exactly when no live child is left |
| `Worker.ProcessChildrenInTransaction` | internal/events/folder_restore.go:102-307 | one batch of children marked or revived with its messages and unmarked files, or no change at all on a missing folder, a taken name, or files that the unique index refuses |
| `Worker.RestoreCallback` | internal/events/folder_restore.go:77-404 | the whole new state of one delivery, and no error exactly when nothing is in the way of a name and nothing below is left to come back |
| `Worker.PurgeCallback` | internal/events/folder_purge.go:70-200 | the whole new state of one delivery: no error exactly when the folder itself went; a deletion that the unique index refuses changes no row |
| `Effects.TrashDelivered` | internal/events/folder_trash.go:72-245 | row by row: the batch goes to the trash in the name of the user, what has an object is marked, each folder is published once; acknowledged if and only if no live child is left, and a message for a folder that is not in the trash stays pending without effect |
| `Effects.RestoreDelivered` | internal/events/folder_restore.go:102-390 | row by row: files of the batch are back without their markers, folders of it on their way with a message each, or the folder itself is live, unmarked and its message gone |
| `Effects.RestoreDeliveredInVain` | internal/events/folder_restore.go:123-154 | a message for a folder that is gone stays pending; one for a folder that is not on its way is acknowledged once nothing in it is to be restored; neither changes anything else |
| `Effects.PurgeDelivered` | internal/events/folder_purge.go:70-187 | row by row: the batch and its objects go, what is below a folder that goes is detached and otherwise unchanged; with the last batch the marker goes and, unless the index refuses, the folder and its message |
| `StaleNotices.EarlyLossExactly` | internal/events/trash_expiration.go:175-252 | a report about a marker destroys a file whose marker is in place if and only if the file is in the trash and that marker has been put again; the object is gone then too |
| `Effects.FileExpires` | internal/events/trash_expiration.go:206-243 | the report about the marker of a trashed file removes its row and its object, which is reported in turn, and nothing else |
| `Effects.ExpiryEndsTheFile` | internal/events/trash_expiration.go:230-237 | for every trashed file with a marker, the expiry of the marker and the report about it can happen, and leave no trace of the file and everything else as it was |
| `Effects.RowFollowsObject` | internal/events/trash_expiration.go:224-243 | the report about the object of a trashed file removes the row that is left |
| `Effects.NothingExpires` | internal/events/trash_expiration.go:175-222 | a report that concerns no trashed file, one about the marker of a folder among them, changes nothing |
| `MarkerLaws.EveryRemovalIsReported` | internal/messaging/aws.go:167-222 | over every step each marker or object that goes is reported exactly once, and no report is lost but the one that is handled |
| `MarkerLaws.LiveFoldersUnmarkedKept` | internal/services/bucket_folder.go:287-296 | no live folder has a marker: kept by every step, whatever it brings back |
| `MarkerLaws.LiveFilesUnmarkedKept` | internal/services/bucket_file.go:216-288 | no live file has one: kept by a step if and only if it is not a TrashFile that the log refuses after the marker was written |
| `StaleNotices.NoStaleKept` | internal/events/trash_expiration.go:196-222 | that no file has both a marker and a pending report about one is kept by a step if and only if the step marks no file about which one is pending |
| `StaleNotices.NoStaleNoLoss` | internal/events/trash_expiration.go:196-222 | as long as that holds, no report destroys a file whose marker is in place |
| `StaleNotices.StaleIsFatal` | internal/events/trash_expiration.go:196-222 | once it does not hold of a trashed file, there is a step that destroys the file |
| `Worker.HandleEvent` | internal/events/handler.go:75-89 | one message is one step of the protocol: acknowledged without an error, pending otherwise |
| `Worker.HandleEvents` | internal/events/handler.go:71-90 | a sequence of messages is a run of the protocol that delivers, in this order, those that can be read; the others are acknowledged without any effect |
| `Worker.EventsInOrder` | internal/events/handler.go:71-82 | the messages that are delivered are those that can be read, all of them, in their order |
| `Worker.HandleBucketEvents` | internal/events/handler.go:92-182 | a sequence of storage reports is a run of the protocol |
| `Worker.OthersStayPending` | internal/events/handler.go:84-88 | a delivery removes no message but its own |
| `Invariants.StatusKept` | internal/events/folder_restore.go:209-262 | every step keeps: a folder being restored is in the trash with its message pending, a row in the trash is `deleted` or `restoring` and says who deleted it, a live folder has no status, no file is `restoring` |
| `Names.LinksKept` | internal/services/bucket_folder.go:73-97 | every step keeps the parent links acyclic |
| `Names.NamesKept` | internal/database/migrations/00001_initial_migration.sql:109-111 | live sibling folders keep distinct names over every step without any guard, with the schema and, by the checks of the code alone, without it |
| `Names.ParentsKeepNames` | internal/helpers/folder.go:61-102 | reviving all trashed ancestors at once keeps sibling names distinct |
| `Names.RestoreKeepsNames` | internal/events/folder_restore.go:156-179 | the check at the start of the callback covers the folder that it brings to life at the end |
| `Names.PurgeKeepsNames` | internal/events/folder_purge.go:90-187 | a purge keeps the names of live folders and of live files distinct, whatever it detaches |
| `Names.FileNamesKept` | internal/database/migrations/00001_initial_migration.sql:148-150 | live files of one folder keep distinct names over every step with the schema; without it over every step but a FolderRestore that gets to a batch with a name of a live sibling or of another file of the batch |
| `Names.RestoredFileNames` | internal/events/folder_restore.go:224-268 | reviving a batch of files keeps file names distinct, and so is accepted by the index, if and only if none of them meets a live namesake or another of the batch |
| `DataSafety.LiveDataSurvives` | internal/events/folder_purge.go:89-151 | no step hard-deletes a live row or removes the object of a live file |
| `DataSafety.StoredKept` | internal/services/bucket_file.go:362-462 | every file that is not uploading has its object after a step if and only if the step does not trash a file without one and is not a rolled-back purge |
| `TrashCover.CoverKept` | internal/events/folder_trash.go:92-245 | every trashed folder with a live child has a FolderTrash pending: kept by every step, and by a FolderRestore if and only if it does not bring a folder to life under a discarded parent that is not going to be walked |
| `TrashCover.BringsBackExactly` | internal/events/folder_restore.go:309-390 | a delivery brings its folder to life exactly when, beforehand, no child folder is left to come back, the files left fit into one batch, and no name is in the way |
| `TrashCover.LiveItemsHaveLiveAncestors` | internal/events/folder_trash.go:97-193 | when no FolderTrash is pending and nothing is being restored, no live folder or file has a trashed ancestor at any depth |
| `Runs.EveryRun` | internal/events/handler.go:71-90 | over every run of a new bucket the status columns, the links and the names of folders stay sound, with the schema those of files too; live folders have no marker; stored objects, the cover, the absence of stale reports and unmarked live files hold throughout if and only if every step meets its guard, and with the guard on reports none destroys a file before its time |
| `Runs.NothingLiveUnderTrash` | internal/events/folder_trash.go:92-245 | after any interleaving in a new bucket without RestoreFolder calls, once no FolderTrash is pending, no live folder or file has a trashed ancestor at any depth |
| `ConcreteRuns.SmallTreeIsReady` | internal/services/bucket_folder.go:217-250 | the premises of the round trip are met in a reachable state: a live folder with a subfolder and an uploaded file |
| `ConcreteRuns.LiveFolderInTrash` | internal/services/bucket_folder.go:217-250 | a reachable state with a live folder in a trashed one and an empty queue |
| `ConcreteRuns.UploadedWithoutObject` | internal/events/folder_trash.go:155-193 | a reachable state with a live `uploaded` file that has no object |
| `ConcreteRuns.RowWithoutObject` | internal/services/bucket_file.go:446-480 | a reachable rolled-back purge that leaves a row without its object |
| `ConcreteRuns.EndlessRestore` | internal/events/folder_restore.go:224-268 | a reachable state in which RestoreFolder is accepted and no number of deliveries empties the queue or brings the folder back, because two of its files share a name |
| `ConcreteRuns.FileLeftBehind` | internal/helpers/folder.go:61-102 | a reachable run of RestoreFolder, RestoreFile and one delivery that breaks the guard: the folder is live, its message acknowledged and the queue empty, while a file below it stays in the trash with its marker |
| `ConcreteRuns.EndlessPurge` | internal/events/folder_purge.go:90-187 | a reachable state in which PurgeFolder is accepted and no number of deliveries empties the queue, because detaching a live folder would give the top level two of one name |
| `ConcreteRuns.StaleNotice` | internal/events/trash_expiration.go:206-243 | a run of upload, trash, restore and trash whose last step breaks the guard, after which the report about the first marker destroys the file while the second marker is in place |
| `TrashRun.TrashDrainsExactly` | internal/events/folder_trash.go:97-245 | trashing a wholly live subtree in an idle system: for every delivery order and every choice of batches the queue is empty after exactly the sum over its folders of max(1, ceil(max(child folders, child files) / limit)) deliveries and not before; then the subtree is in the trash, the rest untouched, and every folder was published once |
| `TrashRun.CeilDivBounds` | internal/events/folder_trash.go:209-232 | the count of rounds is the quotient rounded up |
| `TrashRun.CanDeliver` | internal/events/handler.go:84-88 | a pending message can always be delivered, so the run cannot get stuck before it is drained |
| `TrashRun.CascadeStep` | internal/events/folder_trash.go:97-245 | one delivery is one unit of the remaining work, and publishes only folders that were not published before |
| `RestoreRun.DeliveryProgress` | internal/events/folder_restore.go:77-390 | a delivery changes nothing at all or decreases twice the trashed folders plus the restoring folders plus the trashed files, whatever names are in the way |
| `RestoreRun.DeepestProgress` | internal/events/folder_restore.go:309-379 | the delivery of a restoring folder with no restoring child decreases it if and only if no name is in the way |
| `RestoreRun.RoundProgress` | internal/events/handler.go:84-88 | when no name will be in the way, delivering every pending message once, in any order and with repetitions, decreases it |
| `RestoreRun.FairRunDrains` | internal/events/handler.go:84-88 | then after at most that many rounds the queue is empty |
| `RestoreRun.DrainsIfAndOnlyIfClear` | internal/events/folder_restore.go:156-268 | after that many rounds the queue is empty if and only if no two rows of one folder that come back, or are there, share a name |
| `RestoreRun.NeverDrainsUnlessClear` | internal/events/folder_restore.go:156-268 | otherwise no run of deliveries empties the queue or brings the root to life |
| `RestoreRun.RestoreDrainsExactly` | internal/services/bucket_folder.go:299-383 | asked before the call: after an accepted RestoreFolder of a wholly trashed subtree in an idle system, enough fair rounds empty the queue, with all of the subtree back, if and only if no two rows that belong into one folder of the subtree share a name |
| `BottomUp.CompleteKept` | internal/events/folder_restore.go:309-379 | for any set of folders, that everything directly in a live one of them is live is kept by a step if and only if the step trashes nothing there, and brings back an ancestor of the set, as part of an accepted RestoreFile or RestoreFolder, only with all else that it holds; no other step needs a guard |
| `BottomUp.CompleteRuns` | internal/events/folder_restore.go:309-379 | it holds all along a run if and only if every step meets that guard |
| `BottomUp.AcceptedFolder` | internal/services/bucket_folder.go:300-381 | RestoreFolder is accepted exactly under the tests on the state before that the guard spells out, otherwise nothing changes |
| `BottomUp.BroughtBackWhole` | internal/services/bucket_folder.go:299-383 | after an accepted RestoreFolder of a wholly trashed subtree, in whatever bucket, and any run that meets the guard: each folder of the subtree that is live has all folders and files below it live, at any depth |
| `BottomUp.AcknowledgedMeansWhole` | internal/events/folder_restore.go:354-390 | when the delivery of the root is acknowledged after such a run, the whole subtree is live |
| `RestoreRun.RestoreStarts` | internal/services/bucket_folder.go:299-383 | an accepted RestoreFolder on a wholly trashed subtree starts such a run |
| `RestoreRun.MarkersRun` | internal/events/folder_restore.go:298-388 | throughout the run the markers of the subtree are those of what is still in the trash, and each of the others is reported once |
| `RoundTrip.RestoreAccepted` | internal/services/bucket_folder.go:299-383 | RestoreFolder within the retention period accepts a subtree that TrashFolder and its cascade put in the trash |
| `RoundTrip.TrashThenRestore` | internal/events/folder_restore.go:77-390 | TrashFolder, any complete run of its cascade, RestoreFolder, any complete run of that: rows, objects, markers and queue are those from before, and each marker that was put in between is reported once |
| `Drain.DeliverRound` | internal/events/handler.go:71-90 | delivering all pending messages once is a round in the sense of the progress theorems |
| `Drain.DrainTrash` | internal/events/handler.go:71-90 | redelivery of a trash cascade terminates with an empty queue |
| `Drain.DrainRestore` | internal/events/handler.go:71-90 | redelivery of a restore cascade terminates with everything restored, when no name will be in the way |
| `Drain.TrashAndRestore` | internal/services/bucket_folder.go:217-383 | the round trip as a program terminates in the state it started from, but for the reports about the markers |
| `PurgeRun.PurgeDrainsExactly` | internal/events/folder_purge.go:70-200 | PurgeFolder of a trashed folder in an idle system: when no live row would be detached into a namesake, exactly max(1, ceil(max(trashed child folders, trashed child files) / limit)) deliveries, after which the folder, its trashed children, the objects of those files and the folder's marker are gone and nothing else; otherwise the queue is never empty |
| `TrashMarker.MarkerRoundTrip` | internal/storage/aws.go:268-320 | for all ids that are non-empty, free of slashes and not a dot or two, the marker's key gives back the bucket id, the object path and the id |
| `TrashMarker.ObjectRoundTrip` | internal/events/trash_expiration.go:68-112 | so does the key of the object itself, which is not taken for a marker |
| `TrashMarker.MarkersDiffer` | internal/storage/aws.go:296-320 | markers of different buckets, ids or kinds have different keys |
| `TrashMarker.ParseBucketDeletionEvents` | internal/messaging/aws.go:167-222 | the events are those of the records of the expected bucket with a bucket id in their key, in order; acknowledged if there is one |
| `TrashMarker.ParsedInOrder` | internal/messaging/aws.go:180-209 | the events are those of the records of the expected storage bucket whose key names a bucket, each with the fields of its record, all of them, in order |
| `TrashMarker.BucketFoundExactly` | internal/messaging/aws.go:187-199 | a bucket is found in exactly the keys below the two prefixes: the part that follows |
| `TrashMarker.MarkerKeysExactly` | internal/storage/aws.go:268-294 | a key is taken for a marker, and its object path found, exactly when it is the prefix, a bucket, one of the two kinds and the rest |
| `TrashMarker.MarkerNoticesArrive` | internal/messaging/aws.go:187-209 | the notice about a marker reaches the expiration handler of its bucket, which finds its object and id |
| `BucketMember.BucketMemberService.GetBucketMembers` | internal/services/bucket_member.go:44-98 | the listing is exactly the memberships and the invites of people who are not members |
| `BucketMember.BucketMemberService.CompareMemberships` | internal/services/bucket_member.go:167-198 | the three lists are exactly the additions, the changes of group and the removals, each email once |
| `BucketMember.BucketMemberService.UpdateBucketMembers` | internal/services/bucket_member.go:100-165 | for every email but the caller's that passes the domain rule and whose change can be logged, the entry afterwards is the last one in the body, or none; every other entry, the caller's and those of other buckets included, is unchanged; the error replies change nothing |
| `BucketMember.BucketMemberService.AddMember` | internal/services/bucket_member.go:200-280 | one new entry, a membership exactly if there is a user with the email, and no other change |
| `BucketMember.BucketMemberService.UpdateMember` | internal/services/bucket_member.go:282-332 | the same person's entry with the new group, and no other change |
| `BucketMember.BucketMemberService.DeleteMember` | internal/services/bucket_member.go:334-384 | that entry is gone, and no other change |
| `SharingRuns.CreateBucket` | internal/services/bucket.go:90-139 | the new bucket has its creator as owner, or nothing changed |
| `SharingRuns.CreateUserWithInvites` | internal/sql/users.go:13-46 | the groups listed for every email in every bucket are the same as before, and no invite for the email is left |
| `SharingRuns.EveryBucketKeepsAnOwner` | internal/services/bucket_member.go:126-142 | over every serial run of CreateBucket, UpdateBucketMembers by owners and CreateUserWithInvites, every bucket has an owner and at most one entry for each email |
| `AwsLifecycle.EnsureTrashLifecyclePolicy` | internal/storage/aws.go:437-512 | the written rules, or none when the retention is out of range |
| `AwsLifecycle.MergeIsConservative` | internal/storage/aws.go:384-489 | only the last requested retention counts, so twice is once; foreign rules survive in order; the trash rule is there with the requested retention and no other trash rule is |
| `AwsLifecycle.RuleByRule` | internal/storage/aws.go:384-489 | rule by rule: the trash rule is enabled, on the trash prefix and with the requested days; a multipart rule aborts after one day and is left alone if it did; all others are unchanged; what was missing follows, one of each kind |
| `LifecycleCover.RulesCoverMarkers` | internal/storage/aws.go:296-320 | the trash rule applies to the key of every marker and to the key of no object |
| `GcpLifecycle.EnsureTrashLifecyclePolicy` | internal/storage/gcp.go:316-371 | the last matching rule of each kind is replaced by a fresh one at the end |
| `GcpLifecycle.MergeIsConservative` | internal/storage/gcp.go:316-371 | only the last requested retention counts, so twice is once; foreign rules survive in order; a deletion rule on the trash prefix with the requested age is there |
| `GcpLifecycle.RuleByRule` | internal/storage/gcp.go:316-371 | the last trash rule and the last rule that aborts uploads after one day go, every other rule stays in its order, and the two fresh ones follow |
| `GcpLifecycle.OneTrashRule` | internal/storage/gcp.go:316-371 | with at most one match before, every written trash rule has the requested age |
| `RustFsLifecycle.EnsureTrashLifecyclePolicy` | internal/storage/rustfs.go:443-500 | the written rules, or none when the retention is out of range |
| `RustFsLifecycle.MergeIsConservative` | internal/storage/rustfs.go:387-491 | twice is once; foreign rules survive in order; there is a trash rule and every one has the prefix and the requested retention, zero included |
| `RustFsLifecycle.StaysOrFresh` | internal/storage/rustfs.go:387-491 | what is written is exactly the rules that stay, by their fields, and a fresh trash rule if none of them is one |
| `RustFsLifecycle.EnabledTrashRule` | internal/storage/rustfs.go:404-414 | an enabled trash rule comes out if and only if no up-to-date one went in or one of those was enabled |
| `RustFsLifecycle.DisabledStaysDisabled` | internal/storage/rustfs.go:404-414 | a disabled up-to-date trash rule is left disabled, except that with a retention of zero days, which counts as unset, it is replaced |
| `DragDrop.ProcessDirectoryEntry` | web/src/components/upload/components/DragDropZone.tsx:101-148 | every file of the entry, in order, with the path of its directories |
| `DragDrop.PlacesAreTheFiles` | web/src/components/upload/components/DragDropZone.tsx:117-148 | descending the tree by directory names, every file is listed as often as it sits in these directories, and no other |
| `DragDrop.ExtractFolderPaths` | web/src/components/upload/components/DragDropZone.tsx:171-193 | every directory prefix of a file exactly once, sorted by depth |
| `DragDrop.ParentFirst` | web/src/components/upload/components/DragDropZone.tsx:188-206 | the parent of a listed folder stands before it |
| `DragDrop.CreateFolders` | web/src/components/upload/components/DragDropZone.tsx:196-233 | succeeds exactly when no request is lost, the drop target is there and no top-level path meets a folder of its name in it; then there is one new folder for each path and no other, and following parent links from it spells its path and ends at the drop target |
| `DragDrop.HandleDrop` | web/src/components/upload/components/DragDropZone.tsx:235-300 | succeeds exactly when no request for a directory above a file is lost, and the target is there and has no folder with the name of a top-level directory that holds a file; then each file of the tree, as often as it occurs, is sent under its name to a folder whose parent links spell its directories |
| `DragDrop.RefusedExactly` | internal/services/bucket_folder.go:73-97 | the parent and namesake checks of the server refuse a folder of a drop only at the top level, and there only because of a folder from before |
| `RateLimit.RueidisCache.GetRateLimit` | internal/cache/common.go:79-105 | the counter of this identifier after the request, no other counter changed, and a positive wait exactly above the limit |
| `RateLimit.RueidisCache.ApplyRateLimit` | internal/middlewares/ratelimiter.go:61-83 | a request is served exactly when the counter admits it |
| `RateLimit.WaitIsExact` | internal/cache/common.go:79-105 | a refused client is admitted again if and only if it comes no earlier than it was told |
| `RateLimit.WindowServesAtMost` | internal/cache/common.go:79-105 | one counter window serves no more than the limit |
| `RateLimit.LessThanTwiceTheLimit` | internal/cache/common.go:79-105 | no 60 seconds see twice the limit served, for every sequence of requests |
| `RateLimit.BoundIsReached` | internal/cache/common.go:79-105 | for every limit there is a sequence that reaches the bound |
| `Activity.EnrichLogWithDatabase` | internal/activity/helpers.go:73-117 | with a cache filled from logs that use each id for one kind of object, a log comes out as without a cache, in whatever order its fields are visited |
| `Activity.EnrichActivity` | internal/activity/helpers.go:119-130 | in every log, each entry of the four kinds that names an object by a uuid, and does not carry it, is replaced by the row with that id, as without the cache; everything else stays |

## Left out

- More than one bucket in the trash protocol: no operation of it touches two buckets.
- A crash between commit and publish, publish errors, and interleavings inside one callback or service call: steps are atomic and publishing succeeds.
- Failures of the database and of storage calls other than a missing object: the code mostly logs them and goes on.
- BucketPurge (`internal/events/bucket_purge.go`): each redelivery publishes again for what is left, and FolderPurge skips live children, so removal of a whole bucket is not a theorem of this code.
- Purging whole subtrees: FolderPurge goes one level deep, as `PurgeRun.PurgeDrainsExactly` says.
- Draining mixed trash and restore traffic: a FolderTrash for a folder that is live again, and a message for a folder that is gone, are never acknowledged.
- Requests, authentication, listings, downloads and the dispatch of PATCH and DELETE requests to the operations: one branch each.
- Worker.HandleEvents: one worker at a time; messages that cannot be read are part of its input but not of the queue of the model.
- Worker.HandleBucketEvents: the reports are parsed already; `TrashMarker` covers the parsing of keys, JSON is not modelled.
- Worker.ExpirationCallback: on the state as a whole its contract repeats its branches, and `StaleNotices` says what they mean; reading the row twice is one step, so the window between the check and the deletion is not modelled.
- Protocol.RunOneMore: time is a number attached to each step, and nothing says that it grows.
- TrashMarker.ParseBucketDeletionEvents: the back ends other than AWS have the same key functions and are not repeated.
- BucketMember.BucketMemberService.UpdateBucketMembers: the domain rule and the activity log are parameters; the events that announce a change are not modelled.
- SharingRuns.EveryBucketKeepsAnOwner: deleting users, which takes their memberships along, is not one of the operations.
- AwsLifecycle.MergeIsConservative: holds when the existing rules were read; after a read error only the two managed rules are written, as the contract of `AwsLifecycle.EnsureTrashLifecyclePolicy` shows.
- DragDrop.ProcessDirectoryEntry: the directory reader gives its entries in one go, and a file entry can always be read; directories without files leave no trace, as in the source.
- DragDrop.CreateFolders: permissions, the network and a bucket that has gone are one parameter, the lost requests; no other call reaches the server during a drop.
- RateLimit.RueidisCache.GetRateLimit: whole seconds, and counting and expiring are one step, so a remaining lifetime that rounds to zero is not modelled.
- Activity.EnrichActivity: the objects that come with a log already and the sorting by time are not modelled; the logs are values, so it is not visible that the code changes the maps it was given.
- GORM, SQL, S3, GCS, Redis and the message broker: maps, sets, a multiset of messages and a clock stand for them.
