# MildStack's S3 and DynamoDB emulators, verified

MildStack emulates cloud services in one process. This project models the logic of its Go core that has the most
state: the S3 and the DynamoDB service, with their domain states, repositories, paging and encodings.

S3. `S3Model` is the service as a state machine on values: buckets, live objects, the version history, protection,
payloads by reference, and pending uploads. `S3Domain` and `S3Service` are the mutable objects of the source, lists,
maps and loops included, and every method is proved to do what the state machine says. About the state machine the
project proves, over every run of requests with any clock and any answers of the repository, that references lead
somewhere, that live objects, history and payloads agree, that protected objects survive, that versions outlive
everything, and what a client reads after each request. `S3Repository` and `S3Restart` say what a save writes and what
is loaded from it, `S3Alike` and `S3Answers` which worlds clients cannot tell apart. `S3Machine` puts the service and its
file together: when a restart succeeds, what it brings back, and over runs with restarts that it is a return to the last
accepted save. `S3Durable` draws the conclusions, and `S3Losses` gives the runs in which a restart fails.
`S3Listing` proves that clients that follow the pages of a listing see every key exactly once, `S3Pages` which keys and
common prefixes a request shows. `S3Protection` says what holds and retentions refuse and for how long, `S3Settings`
which requests are accepted and what each of them leaves.

DynamoDB. `DynamoRequests` and `DynamoTransactions` say what requests make of tables and items; `DynamoState`,
`DynamoRepository` and `DynamoService` are the objects that clone, change, save, install and publish. Every method
is proved to answer as specified and to leave memory, rows and snapshot in agreement, also when a save fails.
On top of this are the theorems on transactions, batches, updates, keys, ordering and paging. `DynamoEffects` says what
requests leave of the items, `DynamoAnswers` which items a query or scan answers with, in which order.

Encodings. `AttributeCodec`, `WireCodec`, `FilterSplitter` and `AwsChunked` prove round trips for exactly the inputs
for which they hold.

`Strings`, `StableSort`, `KeyOrder`, `KeyedSeq`, `KeyedListing` and `Wrappers` hold what the modules share.

## What the proofs found

Where the code does not keep a promise, one lemma says exactly when it does, and another one shows an input.

- A completed multipart upload keeps its bytes inline and its version record keeps none. In a bucket with
  versioning, or without any bytes, the state can no longer be saved; a retention without a date does the same
  (`S3Repository.StepSaveable`). Such a version stays for ever, and with it every later save is refused
  (`S3Durable.SpoiledForever`, `NeverSavedAgain`).
- A delete takes the payload away before it saves. If the save is refused, the file still names the payload, and the
  service does not start again (`S3Machine.RestartIff`, `BreaksIff`, `S3Losses.RefusedDeleteStops`). After a completion in
  a bucket with versioning this takes no failure of the disk (`S3Losses.SpoiledDeleteStops`, `CompletionStops`).
- A restart loses what was not saved and nothing else but pending uploads (`S3Machine.RestartsRollBack`,
  `NothingLost`, `S3Durable.RestartAnswersIff`).
- A restart gives `mildstack-assets/bootstrap.txt` its first bytes back (`S3Repository.ReloadAnswers`,
  `S3Losses.BootstrapLoaded`, `BootstrapComesBack`).
- A condition check between two writes of one item hides their conflict, and the result depends on their order
  (`DynamoTransactions.ConflictIff`, `CheckHidesConflict`).
- Conflict detection joins table and key with a bar: it takes different items for one exactly where the name of a
  table, followed by a bar, begins the name of another (`DynamoConflicts.MarksCollideIff`, `ConflictsTellItemsIff`,
  `BarInTableName`).
- So do record keys with partition and sort key (`DynamoKeys.KeyIsUniqueIff`, `KeysCollide`).
- A put trims the key it is given, so an item whose record key has white space at its ends is stored under another
  key (`DynamoRequests.DocumentPutKeepsKeysIff`, `SpacedKeyMisplaced`); an update of a missing item stores no key
  attributes (`UpdateKeepsKeysIff`, `MissingItemUpdated`). The bootstrap item is stored under its partition key alone
  (`DynamoRuns.BeginningKeys`).
- A cursor is found again by its key document; paging is complete exactly if every cursor leads to its own item,
  and repeats items for ever where puts have stored two items with one key document
  (`DynamoPaging.PagingWorksIff`, `DynamoReachable.CursorComesBack`).
- An object that was completed from parts without bytes cannot be copied (`S3Settings.CopyAcceptedIff`).
- Values of two kinds under one ordering attribute can be in a circle; of one kind they never are
  (`DynamoOrder.KindsOrderIff`, `KindsMakeCycle`).
- A batch read gives the table at which its budget runs out back without its consistent-read option
  (`DynamoBatch.OptionsKeptIff`, `ConsistencyForgotten`).
- Deleting a table commits twice, so a refused second save leaves the activation of a due table behind
  (`DynamoService.Service.DeleteTable`, `DynamoService.HalfDeleted`).
- Attribute values without exactly one field do not survive storage (`AttributeCodec.RoundTripIff`, `OtherValuesLost`,
  `DynamoDocuments.StepWellIff`, `DynamoService.RestartOverRuns`),
  and a map that looks like an encoded set comes back as a set (`WireCodec.RoundTripIff`, `DisguisedIsLost`).
- Adding 2 to the two largest 64-bit chunk sizes wraps around (`AwsChunked.CutShort`).

## Model

| member | source | states |
|---|---|---|
| S3Listing.GroupingByPrefix | core/internal/resources/s3/domain/state.go:252-283 | the keys of one common prefix are exactly the keys that start with it, for any prefix and delimiter, so that they are contiguous in the sorted keys |
| S3Listing.PageLimits | core/internal/resources/s3/domain/state.go:226-294 | a page is truncated exactly if a matching key lies beyond its marker, and holds at most the normalized MaxKeys entries |
| S3Listing.Resumed | core/internal/resources/s3/domain/state.go:226-294 | a request that resumes at the marker of a page selects exactly the keys the page did not use up, and their entries are the remaining entries of the unbounded listing |
| S3Listing.FollowIsListing | core/internal/resources/s3/domain/state.go:226-294 | following the markers ends, and the pages together are the listing: every matching key once, as a key or under its one common prefix, both in strictly ascending order, no prefix repeated within or across pages |
| S3Listing.ListingUnique | core/internal/resources/s3/domain/state.go:226-294 | that listing is determined by the keys, so the pages of every MaxKeys add up to the same result |
| S3Listing.ResumeV1 | core/internal/resources/s3/application/service_objects.go:30-57 | the marker a version 1 client has to send next (NextMarker, or without a delimiter the last key) asks for the next page |
| S3Listing.ResumeV2 | core/internal/resources/s3/application/service_objects.go:59-99 | the continuation token decodes to the marker of the page and overrides StartAfter |
| S3Listing.ClientsSeeListing | core/internal/resources/s3/application/service_objects.go:30-99 | clients of both versions that follow the pages see the listing, for any prefix, delimiter, start and MaxKeys |
| S3Pages.PageShows | core/internal/resources/s3/domain/state.go:226-294 | a page that is not the last one is full and shows exactly the matching keys up to its marker: those without the delimiter behind the prefix themselves, of the others each cut behind the first delimiter once |
| S3Pages.V1Answer | core/internal/resources/s3/application/service_objects.go:30-57 | so does an answer of version 1, for the trimmed prefix, delimiter and marker of the request and at most MaxKeys entries, 1000 without it; its end is the key the client resumes after, and NextMarker is set exactly for a truncated answer with a delimiter |
| S3Pages.V1Complete | core/internal/resources/s3/application/service_objects.go:30-57 | all pages a version 1 client gets together show exactly the keys that start with the trimmed prefix and lie behind the trimmed marker, and every page but the last is full |
| S3Pages.V2Answer | core/internal/resources/s3/application/service_objects.go:59-99 | an answer of version 2 starts behind the key in the token, or behind the trimmed StartAfter of a request without one, and goes up to the key in the token that it hands out; KeyCount counts keys and common prefixes |
| S3Pages.V2Complete | core/internal/resources/s3/application/service_objects.go:59-99 | all pages a version 2 client gets together show exactly the matching keys and common prefixes, and every page but the last is full |
| S3Domain.IndexOfDelimiter | core/internal/resources/s3/domain/state.go:544-554 | the loop finds the first occurrence of the delimiter, or answers -1 if there is none or the delimiter is empty |
| S3Domain.RollUp | core/internal/resources/s3/domain/state.go:241-293 | the loop over the sorted keys, with its inner loop over a common prefix and its set of prefixes met, computes the page of the specification |
| S3Domain.State.ListObjectPage | core/internal/resources/s3/domain/state.go:226-294 | the page of a bucket is the page of its sorted keys, with the live objects of those keys as contents |
| S3Domain.ListingOfBucket | core/internal/resources/s3/domain/state.go:212-224 | the objects of a bucket are listed in strictly ascending order of their keys, each once |
| S3Domain.State.UpsertBucket | core/internal/resources/s3/domain/state.go:324-343 | on the stored list: replaces or appends, and the list still holds one bucket for each name |
| S3Domain.State.UpsertObject | core/internal/resources/s3/domain/state.go:345-366 | on the stored list: one object for each bucket and key, the new one with size, tag and date filled in |
| S3Domain.State.DeleteObject | core/internal/resources/s3/domain/state.go:368-384 | removes the object with its ACL, tags, retention and hold, and nothing else; reports whether there was one |
| S3Domain.State.DeleteBucket | core/internal/resources/s3/domain/state.go:386-406 | goes through exactly for a bucket without live objects and without history, and removes all settings of the bucket and its objects |
| S3Domain.State.RemoveBucketGovernance | core/internal/resources/s3/domain/state.go:817-834 | removes exactly the configuration and protection that belongs to the bucket |
| S3Domain.State.SetBucketVersioning | core/internal/resources/s3/domain/state_versions.go:68-93 | one setting for each bucket, the last one set |
| S3Domain.State.NextVersionSequence | core/internal/resources/s3/domain/state_versions.go:183-191 | the loop computes one more than the largest sequence number in the history |
| S3Domain.State.RecordObjectVersion | core/internal/resources/s3/domain/state_versions.go:132-137 | appends the record of the object under the next sequence number |
| S3Domain.State.RecordDeleteMarker | core/internal/resources/s3/domain/state_versions.go:139-151 | appends a delete marker under the next sequence number |
| S3Domain.State.ListObjectVersions | core/internal/resources/s3/domain/state_versions.go:95-130 | the loops over history and live objects compute the version listing of the specification |
| S3Invariants.HintTells | core/internal/resources/s3/application/payload_store.go:140-143 | the hint bucket/key of a payload tells the object, as bucket names hold no slash |
| S3Invariants.ValidNameProper | core/internal/resources/s3/application/service_buckets.go:101-146 | an accepted bucket name holds no slash |
| S3Invariants.StepKeeps | core/internal/resources/s3/application/service_versions.go:25-94 | every request, refused or not, saved or not, keeps the whole invariant |
| S3Invariants.ReachableInv | core/internal/resources/s3/application/repository_fs.go:101-313 | every state that a service reaches, with a repository or without, satisfies it: objects, records, settings, configurations and uploads name live buckets, protection, ACLs and tags name live objects, the newest record of a key is a delete marker exactly if the key has no live object and otherwise has its tag, size and payload, and every payload reference opens to bytes of the recorded size and sum |
| S3Invariants.LatestHasLargestSequence | core/internal/resources/s3/domain/state_versions.go:163-204 | the newest record of a key has the largest sequence number |
| S3Invariants.DropBucketKeeps | core/internal/resources/s3/domain/state.go:386-406 | removing an empty bucket leaves no reference to it behind |
| S3Versions.EveryVersionListed | core/internal/resources/s3/domain/state_versions.go:95-130 | every record of the bucket is in the version listing, and every live object under its records or as a null version |
| S3Versions.NewestListed | core/internal/resources/s3/domain/state_versions.go:95-130 | the first entry of a key is a delete marker exactly if the key has no live object, and otherwise describes that object |
| S3Effects.RefusalChangesNothing | core/internal/resources/s3/application/service_objects.go:135-158 | a request that is refused for any reason but persistence leaves objects, history, payloads and uploads as they were |
| S3Effects.PutThenGet | core/internal/resources/s3/application/service_objects.go:101-183 | after a put the object reads as it was sent, with the sum of its bytes and the current date, and every other object reads as before |
| S3Effects.CopyThenGet | core/internal/resources/s3/application/service_objects.go:189-271 | after a copy the object reads as its source did, with the metadata the directive asks for, and every other object reads as before, also when source and destination are the same |
| S3Effects.CompleteThenGet | core/internal/resources/s3/application/service_multipart.go:127-182 | after a completion the object reads as the last bytes sent for each part number, ascending, and the upload is gone exactly if the state was saved |
| S3Effects.DeleteThenGet | core/internal/resources/s3/application/service_versions.go:75-94 | after a delete there is nothing to read, every other object reads as before, and a bucket with versioning (suspended or not) has one delete marker more |
| S3Effects.DeleteEach | core/internal/resources/s3/application/service_objects.go:288-317 | a multiple delete reports every named key in order, as refused or as deleted, removes exactly the named objects that are not protected, and what it does to a key does not depend on the other keys; a key whose removal is not saved is removed and reported as refused |
| S3Effects.AttemptsInOrder | core/internal/resources/s3/application/service_objects.go:300-312 | each key of a multiple delete has a save of its own, in the order of the keys |
| S3Effects.DeleteEachLeaves | core/internal/resources/s3/application/service_objects.go:288-317 | whatever a multiple delete leaves reads as before |
| S3Effects.NewObjectProtection | core/internal/resources/s3/application/service_object_lock.go:205-242 | an object that is put or completed has exactly the default retention of its bucket and no legal hold, whatever its key had before |
| S3Effects.CopyProtects | core/internal/resources/s3/application/service_object_lock.go:205-255 | a copy has exactly the hold of its source and its retention, or else the bucket's default; a copy onto itself has the default |
| S3Effects.HistoryGrows | core/internal/resources/s3/domain/state_versions.go:132-151 | over every run the history only gains records at its end |
| S3Effects.VersionsOutlive | core/internal/resources/s3/application/service_versions.go:66-94 | over every run each version record stays what it is, its bucket stays, and its payload keeps its bytes |
| S3Settings.PutAnswers | core/internal/resources/s3/application/service_objects.go:135-158 | a put is refused exactly for a blank bucket or key, a missing bucket or an object whose hold is on or whose retain-until date lies ahead, in this order, and accepted otherwise |
| S3Settings.DeleteAnswers | core/internal/resources/s3/application/service_objects.go:273-286 | so is a delete, which needs no object |
| S3Settings.CopyAcceptedIff | core/internal/resources/s3/application/service_objects.go:189-236 | a copy goes through exactly if moreover its source is there and is not an object that was completed from parts without bytes; which refusal is given when |
| S3Settings.CompleteAcceptedIff | core/internal/resources/s3/application/service_multipart.go:127-148 | a completion goes through exactly for a pending upload with parts whose object is not protected |
| S3Settings.GetAnswers | core/internal/resources/s3/application/service_objects.go:101-120 | exactly the live objects can be read, with all of their bytes; the errors of the others |
| S3Settings.WritesRecorded | core/internal/resources/s3/application/service_versions.go:66-73 | every accepted put, copy and completion in a bucket with a versioning setting makes one record more, under the number after the largest one, with the fields of the object as it is now; in other buckets none |
| S3Settings.DeletePayloads | core/internal/resources/s3/application/service_versions.go:75-94 | an accepted delete takes the bytes of its object away exactly in a bucket without a versioning setting, and no others |
| S3Settings.UpsertFills | core/internal/resources/s3/domain/state.go:345-366 | size, tag and date of a stored object are those that the caller gives, or else those of its bytes and of the clock; every other object stays |
| S3Settings.BucketCreated | core/internal/resources/s3/application/service_buckets.go:19-47 | a bucket is created under its trimmed, valid name with the trimmed or the default region, an existing one is answered and kept, and nothing else changes |
| S3Settings.NameRefusedIff | core/internal/resources/s3/application/service_buckets.go:101-146 | a bucket name is refused exactly for its length, for a character other than small letters, digits, dots and hyphens, for a dot or hyphen at an end, for a dot next to a dot or hyphen, and for want of a letter |
| S3Settings.BucketDeletedIff | core/internal/resources/s3/application/service_buckets.go:86-99 | a bucket is deleted exactly if it is there and holds neither objects nor versions |
| S3Settings.BucketDeleted | core/internal/resources/s3/domain/state.go:386-406 | then it is gone with its settings and pending uploads, and those of every other bucket stay |
| S3Settings.VersioningSetIff | core/internal/resources/s3/application/service_versions.go:25-45 | a versioning setting is stored exactly for the two trimmed texts Enabled and Suspended, and nothing else changes |
| S3Settings.ConfigSetIff | core/internal/resources/s3/application/service_subresources.go:171-186 | a configuration of a bucket is stored as it was sent, apart from an empty ACL, and every other one stays |
| S3Settings.ConfigRemovedIff | core/internal/resources/s3/application/service_subresources.go:36-45 | a configuration that is removed is gone, and every other one stays |
| S3Settings.AclSetIff | core/internal/resources/s3/application/service_object_governance.go:28-46 | an ACL is stored exactly for a live object, as it was sent, and every other one stays |
| S3Settings.TaggingSetIff | core/internal/resources/s3/application/service_object_governance.go:68-86 | so are tags |
| S3Settings.TaggingRemovedIff | core/internal/resources/s3/application/service_object_governance.go:88-104 | tags that are removed are gone, and those of every other object stay |
| S3Settings.UploadBegunIff | core/internal/resources/s3/application/service_multipart.go:14-43 | an upload begins with the trimmed names, content type or default, metadata and headers of the request, and without parts |
| S3Settings.PartReceivedIff | core/internal/resources/s3/application/service_multipart.go:69-93 | a part is taken exactly for a pending upload and a positive number, and answered with its sum and size |
| S3Settings.UploadAbortedIff | core/internal/resources/s3/application/service_multipart.go:184-194 | an upload that is aborted is gone, and nothing else |
| S3ObjectLock.BlockedSurvives | core/internal/resources/s3/application/service_object_lock.go:221-237 | an object under retention or hold, its bytes and its protection survive every request that does not set protection |
| S3ObjectLock.RetentionNotWeaker | core/internal/resources/s3/application/service_object_lock.go:124-153 | a new retention is never earlier and never turns COMPLIANCE into GOVERNANCE |
| S3ObjectLock.RetainedOverRuns | core/internal/resources/s3/application/service_object_lock.go:205-255 | while the clock stays before the retain-until date, no run changes or removes the object or its bytes, moves the date back or relaxes the mode |
| S3ObjectLock.HeldOverRuns | core/internal/resources/s3/application/service_object_lock.go:178-237 | a legal hold protects for as long as no request sets that hold, whatever the clock says |
| S3ObjectLock.HoldEnds | core/internal/resources/s3/application/service_object_lock.go:178-237 | with the hold off, exactly an unexpired retention still protects |
| S3Protection.DeniedIff | core/internal/resources/s3/application/service_object_lock.go:221-237 | a put, copy, completion or delete of a live object is denied, and changes nothing, exactly if its legal hold is on or its retain-until date lies ahead |
| S3Protection.HoldSetIff | core/internal/resources/s3/application/service_object_lock.go:178-203 | a hold is set exactly if the object is there, its bucket has a lock configuration and the request is well-formed; the object then has the hold that was sent, and nothing else is different |
| S3Protection.HoldDenies | core/internal/resources/s3/application/service_object_lock.go:178-237 | from a hold that is put on until it is set again, over any run and with any clock, the object is read as before and every put, copy, completion and delete of it is denied |
| S3Protection.RetentionSetIff | core/internal/resources/s3/application/service_object_lock.go:124-153 | a retention is set exactly if moreover its date is not earlier and it does not turn COMPLIANCE into GOVERNANCE; it is stored as it was sent, and nothing else is different |
| S3Protection.WeakerDeniedIff | core/internal/resources/s3/application/service_object_lock.go:319-324 | exactly the earlier and the relaxed ones are denied |
| S3Protection.RetentionDenies | core/internal/resources/s3/application/service_object_lock.go:124-237 | over any run that stays before the date that was set, the object is read as before, whatever would replace or remove it is denied, and the date is never earlier |
| S3Protection.LockSetIff | core/internal/resources/s3/application/service_object_lock.go:81-99 | a lock configuration is stored exactly by a bucket with enabled versioning, and nothing else is different |
| S3Protection.DefaultDenies | core/internal/resources/s3/application/service_object_lock.go:205-237 | an object that is put into a bucket with a default retention has that retention, and nothing replaces or removes it before it is over |
| S3Multipart.UpsertRepresents | core/internal/resources/s3/application/service_multipart.go:208-223 | a part that is sent replaces the one of its number, and numbers stay unique |
| S3Multipart.SortedIsPartsOf | core/internal/resources/s3/application/service_multipart.go:225-231 | the sorted parts are the last bytes for each number in ascending order, whatever the order of the calls |
| S3Multipart.CompletedFromLastWrites | core/internal/resources/s3/application/service_multipart.go:150-167 | body, size and tag of the completed object are those of the last bytes for each number |
| S3Multipart.SameLastWritesSameObject | core/internal/resources/s3/application/service_multipart.go:127-182 | two sequences of part uploads with the same last bytes for each number complete to the same object and tag |
| S3Multipart.TagsTellBodies | core/internal/resources/s3/application/service_multipart.go:150-160 | two completed uploads have the same tag exactly if they were made of the same bodies in the same order, whatever their part numbers, and then they have the same bytes |
| S3Multipart.PartsOverRuns | core/internal/resources/s3/application/service_multipart.go:69-93 | in any run, with any requests in between, a pending upload holds exactly the parts sent to it |
| S3Repository.PruningDropsNothing | core/internal/resources/s3/application/repository_fs.go:518-577 | in a reachable state no pruning pass drops anything |
| S3Repository.SaveAccepts | core/internal/resources/s3/application/repository_fs.go:60-313 | for a reachable state the validation of a save fails on missing bytes and missing dates only, never on a reference |
| S3Repository.StepSaveable | core/internal/resources/s3/application/service_multipart.go:127-182 | exactly which requests make a state that can no longer be saved, told from the state before: a completion that gets through, into a bucket with versioning or with no bytes, and a first retention without a date |
| S3Repository.ReloadAnswers | core/internal/resources/s3/application/repository_fs.go:315-470 | a saved and reloaded object is answered as before, bytes and all fields, exactly unless it is the bootstrap object and its bytes were replaced, or it has no date |
| S3Alike.AnswersAlike | core/internal/resources/s3/application/service_objects.go:101-120 | worlds that differ only in the place of bytes and the order of versions answer every object alike |
| S3Alike.StepLike | core/internal/resources/s3/application/repository_fs.go:315-470 | such worlds answer every request alike, and lead to such worlds |
| S3Answers.GetAlike | core/internal/resources/s3/application/service_objects.go:101-120 | GetObject answers alike on such worlds, errors included |
| S3Answers.PagesAlike | core/internal/resources/s3/domain/state.go:226-294 | the keys of a bucket, on which every page depends, are the same there, and so is what pages show of each object |
| S3Answers.VersionsListedAlike | core/internal/resources/s3/application/service_versions.go:47-64 | ListObjectVersions answers with the same entries in the same order there, null versions included, and never fails: sequence numbers are unique, so that the reordered history lists the same |
| S3Answers.VersionsShown | core/internal/resources/s3/domain/state_versions.go:95-130 | the version listing of a bucket holds exactly its records and a version without a number for each live object that has none, each once, by key and newest first |
| S3Restart.LoadsIff | core/internal/resources/s3/application/repository_fs.go:36-58 | a file that was accepted loads exactly if the payloads of its objects and versions are there; it passes the validation again, and the bootstrap object needs no payload |
| S3Restart.LoadsAlike | core/internal/resources/s3/application/repository_fs.go:716-763 | what is saved of a world loads as one that differs in the place of bytes and the order of versions only, if the bootstrap object is intact |
| S3Restart.SavedAlike | core/internal/resources/s3/application/repository_fs.go:60-99 | of such worlds the same file is written, byte places and order of versions notwithstanding |
| S3Restart.SavedAgain | core/internal/resources/s3/application/repository_fs.go:36-99 | saving what was loaded writes the file that it was loaded from, in every case |
| S3Machine.MultipleIsSingles | core/internal/resources/s3/application/service_objects.go:288-317 | a multiple delete leaves what the deletes of its keys leave, one after the other, each with its own save |
| S3Machine.BookMatches | core/internal/resources/s3/application/service_persistence.go:20-28 | every request is answered by a restarted service as by one that was not, and the file becomes that of the new state exactly if the save is accepted |
| S3Machine.RestartIff | core/internal/resources/s3/application/service_persistence.go:5-18 | a service starts again exactly if the payload of each object that its file names is still there; those of versions always are |
| S3Machine.BreaksIff | core/internal/resources/s3/application/service_versions.go:75-94 | exactly which request stops a service from starting again: a delete, in a bucket without versioning, of an object whose payload the file names, with a save that is refused; after an accepted save it always starts again |
| S3Machine.RestartRollsBack | core/internal/resources/s3/application/service_persistence.go:5-18 | a restart brings back the world of the last accepted save, without pending uploads, exactly if the bootstrap object was saved with its first bytes and they are there |
| S3Machine.RestartUnseenIff | core/internal/resources/s3/application/service_persistence.go:5-18 | a restart leads to a world like the one before, but for pending uploads, exactly if saving before it would write what the file holds, and the bootstrap object is intact |
| S3Machine.RestartsRollBack | core/internal/resources/s3/application/repository_fs.go:36-99 | over every run from the first start with any restarts that succeed, the service is like one that goes back to its last accepted save at each of them |
| S3Machine.RestartsUnseen | core/internal/resources/s3/application/repository_fs.go:36-99 | over every such run with nothing unsaved at its restarts, it is like one that never stops and forgets its pending uploads there |
| S3Machine.NothingLost | core/internal/resources/s3/application/repository_fs.go:36-99 | while the disk works and no request is one of those that spoil the state, no restart fails and none is seen but for pending uploads |
| S3Durable.ReachableAnswers | core/internal/resources/s3/application/repository_fs.go:36-99 | after every run with restarts, objects, pages of keys and version listings are read as from that ideal service |
| S3Durable.RestartAnswersIff | core/internal/resources/s3/application/service_persistence.go:5-18 | settings, what each object reads as, what copies of it are made of, and the versions are the same after a restart exactly if saving before it would write what the file holds, and the bootstrap object is intact |
| S3Durable.RetainedOverRestarts | core/internal/resources/s3/application/service_object_lock.go:205-255 | a retention that was saved holds over runs with restarts: before the date, the answer stays, the date does not move back and the mode is not relaxed |
| S3Durable.VersionsOverRestarts | core/internal/resources/s3/application/service_versions.go:66-94 | a version that was saved outlives runs with restarts, with its bucket and its bytes |
| S3Durable.SpoiledForever | core/internal/resources/s3/application/repository_fs.go:154-173 | a version without its bytes is never removed, so that no request makes the state one that can be saved again |
| S3Durable.NeverSavedAgain | core/internal/resources/s3/application/service_persistence.go:20-28 | from then on no request changes the file, so that the next restart, if it succeeds, undoes them all |
| S3Losses.UnsavedDeleteStops | core/internal/resources/s3/application/service_versions.go:75-94 | in every such service: an accepted put and then a delete of the object that is not saved, and the service does not start again |
| S3Losses.RefusedDeleteStops | core/internal/resources/s3/application/service_versions.go:75-94 | the run: from the first start a bucket is made and an object put, the save of its delete fails, and the service does not start again |
| S3Losses.SpoiledDeleteStops | core/internal/resources/s3/application/service_multipart.go:127-182 | in every service with nothing unsaved: a completion in a bucket with versioning, then a delete in a bucket without, and it does not start again, whatever the disk does |
| S3Losses.CompletionStops | core/internal/resources/s3/application/service_multipart.go:127-182 | the run of eight requests from the first start in which the disk never fails and the service does not start again |
| S3Losses.BootstrapLoaded | core/internal/resources/s3/application/repository_fs.go:408-411 | whatever was saved under the bootstrap key is read with the first bytes after a restart, and copied with the bytes that were put |
| S3Losses.BootstrapComesBack | core/internal/resources/s3/application/repository_fs.go:408-411 | the run: from the first start other bytes are put under the bootstrap key and read, and after a restart the first ones are read |
| S3Service.MemoryPayloadStore.StorePayload | core/internal/resources/s3/application/payload_store.go:32-50 | the bytes under the reference made of hint and sum, every other payload as before |
| S3Service.MemoryPayloadStore.DeletePayload | core/internal/resources/s3/application/payload_store.go:60-65 | removes that payload only |
| S3Service.Service.CreateBucket | core/internal/resources/s3/application/service_buckets.go:19-47 | on the service's fields, exactly the step of the state machine, with its answer |
| S3Service.Service.DeleteBucket | core/internal/resources/s3/application/service_buckets.go:86-99 | on the service's fields and payloads, exactly the step of the state machine, with its answer; pending uploads of the bucket go with it |
| S3Service.Service.PutBucketVersioning | core/internal/resources/s3/application/service_versions.go:25-45 | on the service's fields and payloads, exactly the step of the state machine, with its answer |
| S3Service.Service.PutObjectLockConfiguration | core/internal/resources/s3/application/service_object_lock.go:81-99 | on the service's fields and payloads, exactly the step of the state machine, with its answer; only with versioning enabled |
| S3Service.Service.PutObjectRetention | core/internal/resources/s3/application/service_object_lock.go:124-153 | on the service's fields and payloads, exactly the step of the state machine, with its answer, with the order of its refusals |
| S3Service.Service.PutObjectLegalHold | core/internal/resources/s3/application/service_object_lock.go:178-203 | on the service's fields and payloads, exactly the step of the state machine, with its answer, with the order of its refusals; S3Protection.HoldSetIff says what that step leaves |
| S3Service.Service.StoreObject | core/internal/resources/s3/application/service_versions.go:66-73 | upserts the object and records a version without its body where the bucket has a versioning setting |
| S3Service.Service.GetObject | core/internal/resources/s3/application/service_objects.go:101-120 | reads the live object with its bytes, inline or from the payload store |
| S3Service.Service.PutObject | core/internal/resources/s3/application/service_objects.go:135-183 | step by step on state and payloads what the state machine says, the answer included |
| S3Service.Service.CopyObject | core/internal/resources/s3/application/service_objects.go:189-260 | on the service's fields and payloads, exactly the step of the state machine, with its answer |
| S3Service.Service.RemoveObject | core/internal/resources/s3/application/service_versions.go:75-94 | on the service's fields and payloads, exactly the step of the state machine, with its answer; the payload is deleted only in a bucket without a versioning setting |
| S3Service.Service.DeleteObject | core/internal/resources/s3/application/service_objects.go:273-286 | on the service's fields and payloads, exactly the step of the state machine, with its answer |
| S3Service.Service.DeleteObjects | core/internal/resources/s3/application/service_objects.go:288-317 | on the service's fields and payloads, exactly the step of the state machine, with its answer, the loop over the keys with both result lists and a save for each |
| S3Service.Service.Upsert | core/internal/resources/s3/application/service_multipart.go:208-223 | the loop replaces the part of that number or appends it |
| S3Service.Service.Assemble | core/internal/resources/s3/application/service_multipart.go:150-167 | the loop builds the joined bytes and the sums of the parts |
| S3Service.Service.CreateMultipartUpload | core/internal/resources/s3/application/service_multipart.go:14-43 | on the service's fields and payloads, exactly the step of the state machine, with its answer |
| S3Service.Service.UploadPart | core/internal/resources/s3/application/service_multipart.go:69-93 | on the service's fields and payloads, exactly the step of the state machine, with its answer |
| S3Service.Service.CompleteMultipartUpload | core/internal/resources/s3/application/service_multipart.go:127-182 | on the service's fields and payloads, exactly the step of the state machine, with its answer; the upload stays pending if the repository refuses the state |
| S3Service.Service.AbortMultipartUpload | core/internal/resources/s3/application/service_multipart.go:184-194 | on the service's fields and payloads, exactly the step of the state machine, with its answer |
| S3Service.ReachableListing | core/internal/resources/s3/application/service_objects.go:30-99 | after any requests, from either beginning, a client of either version that follows the pages of a bucket sees exactly the keys of its live objects that start with the trimmed prefix and lie behind the start, without those that hold the trimmed delimiter behind the prefix, and the cuts of these behind the first delimiter, each once and in order |
| S3Service.ReachableVersions | core/internal/resources/s3/application/service_versions.go:47-64 | after any requests, from either beginning, the first entry of a key in the version listing tells whether there is a live object and describes it |
| DynamoValues.EqualsIsEquality | core/internal/resources/dynamodb/application/service_query.go:732-764 | on well-formed values the recursive comparison is equality |
| DynamoKeys.DocumentKeySeparates | core/internal/resources/dynamodb/application/service_batch.go:404-446 | typed key documents whose partition component has no bar have equal keys exactly if they are equal |
| DynamoKeys.KeySpelled | core/internal/resources/dynamodb/application/service_batch.go:404-481 | exactly the documents of the key attributes and nothing else have a key: the text of the partition key and, behind a bar, that of the sort key |
| DynamoKeys.KeyIsUniqueIff | core/internal/resources/dynamodb/application/service_batch.go:404-481 | a key of text components belongs to one document only, exactly if it holds a single bar |
| DynamoKeys.KeysCollide | core/internal/resources/dynamodb/application/service_batch.go:404-481 | two documents that share the key a|b|c |
| DynamoKeys.RecordKeyIsDocumentKey | core/internal/resources/dynamodb/application/service_batch.go:448-481 | the record key of an item is the document key of its key attributes |
| DynamoTransactions.UpdateKeepsKeyAttributes | core/internal/resources/dynamodb/application/service_update.go:51-71 | an update that goes through leaves the key attributes as they were |
| DynamoTransactions.ConflictIff | core/internal/resources/dynamodb/application/service_batch.go:205-219 | an entry conflicts exactly with an unchecked entry of its target that no later entry of the target hides |
| DynamoTransactions.ChecksSeparate | core/internal/resources/dynamodb/application/service_batch.go:205-219 | in a transaction that goes through, two writes of one target have a condition check of that target in between |
| DynamoTransactions.UncheckedTransaction | core/internal/resources/dynamodb/application/service_batch.go:180-287 | without condition checks, a transaction goes through exactly if the marks of its targets are pairwise different and every entry is possible in the starting state; then it amounts to all effects at once |
| DynamoTransactions.DistinctTransaction | core/internal/resources/dynamodb/application/service_batch.go:180-287 | a transaction with pairwise different marks, condition checks included, goes through exactly if every entry is possible in the starting state, and amounts to all effects at once |
| DynamoTransactions.AllAtOnceUnique | core/internal/resources/dynamodb/application/service_batch.go:180-287 | there is only one result of all effects at once |
| DynamoTransactions.OrderIrrelevant | core/internal/resources/dynamodb/application/service_batch.go:180-287 | every permutation of such entries goes through, too, with the same items |
| DynamoTransactions.CheckHidesConflict | core/internal/resources/dynamodb/application/service_batch.go:210-219 | put, check, put on one item goes through and leaves the second put: neither the conflict nor the order is seen |
| DynamoConflicts.MarksCollideIff | core/internal/resources/dynamodb/application/service_batch.go:210-219 | items of two tables can share a key of the map of targets exactly if the name of one table and a bar begin the name of the other |
| DynamoConflicts.ConflictsTellItemsIff | core/internal/resources/dynamodb/application/service_batch.go:180-287 | the conflict detection tells the items of every transaction apart exactly if no two tables have such names |
| DynamoConflicts.UncheckedOnItems | core/internal/resources/dynamodb/application/service_batch.go:180-287 | on such tables a transaction without condition checks goes through exactly if its entries are about pairwise different items and each is possible in the starting state; then it amounts to all effects at once |
| DynamoConflicts.DistinctOnItems | core/internal/resources/dynamodb/application/service_batch.go:180-287 | on such tables a transaction about pairwise different items, condition checks included, goes through exactly if each entry is possible in the starting state, and amounts to all effects at once |
| DynamoConflicts.OrderOnItems | core/internal/resources/dynamodb/application/service_batch.go:180-287 | on such tables every permutation of such a transaction goes through with the same items |
| DynamoConflicts.ClashingPuts | core/internal/resources/dynamodb/application/service_batch.go:205-219 | on any two tables whose names clash, two puts of different items are refused as a conflict |
| DynamoConflicts.BarInTableName | core/internal/resources/dynamodb/application/service_batch.go:205-219 | the input: the item b|k|k of a table a and the item k|k of a table a|b |
| DynamoUpdates.UpdatedIff | core/internal/resources/dynamodb/application/service_update.go:51-71 | an update goes through exactly if it names no key attribute and is possible on every attribute alone, and then each attribute becomes what the operations about it make of it |
| DynamoUpdates.OrderAcrossAttributesIrrelevant | core/internal/resources/dynamodb/application/service_update.go:51-71 | in which order an update takes the attributes makes no difference to its result |
| DynamoUpdates.LastWins | core/internal/resources/dynamodb/application/service_update.go:51-71 | the last operation stands: what it sets is there, what it removes is gone, what it adds to is a number |
| DynamoEffects.PutLeaves | core/internal/resources/dynamodb/application/service.go:327-355 | a put leaves exactly the document that was sent under the trimmed names, and every other item as it was; which error is given when |
| DynamoEffects.DeleteLeaves | core/internal/resources/dynamodb/application/service.go:357-383 | a delete leaves no such item and every other one as it was, and fails exactly without the item |
| DynamoEffects.ConditionFailsIff | core/internal/resources/dynamodb/application/service_update.go:197-246 | an update fails its condition with attribute_not_exists exactly if the item is there and has the attribute, with attribute_exists exactly if it is not there or lacks it, with a value exactly if it has none or another one, and never without a condition |
| DynamoEffects.UpdateLeaves | core/internal/resources/dynamodb/application/service_update.go:15-94 | an update goes through exactly if its condition is met, it names some operation, no key attribute, and only additions of numbers; each attribute is then what its operations make of it, and every other item as it was |
| DynamoEffects.AdditionLeaves | core/internal/resources/dynamodb/application/service_update.go:312-342 | an addition takes an absent attribute for 0, refuses anything but numbers, stores the sum and leaves the other attributes |
| DynamoEffects.TransactLeaves | core/internal/resources/dynamodb/application/service_batch.go:180-287 | a transaction on items that are told apart goes through exactly if each entry can be carried out; then a put has left its document, a delete nothing, a check what was there, an update what its operations make of each attribute, and every other item is as before |
| DynamoEffects.ConditionCancels | core/internal/resources/dynamodb/application/service_batch.go:228-279 | where the entries before it can be carried out, an update or a check cancels the transaction, and is named as the only reason, exactly if the items do not meet its condition |
| DynamoEffects.CheckCancelsIff | core/internal/resources/dynamodb/application/service_batch.go:273-281 | the same for a check alone, spelled out for each condition; a check that holds changes nothing |
| DynamoEffects.ConflictCancels | core/internal/resources/dynamodb/application/service_batch.go:210-219 | two writes of one item without another entry of it in between cancel the transaction, and exactly the two are named |
| DynamoEffects.WritesLeave | core/internal/resources/dynamodb/application/service_batch.go:36-111 | of several writes of one item the last one stands, a put with its document and a delete with nothing, and an item that no write is about is as before |
| DynamoEffects.BatchLeaves | core/internal/resources/dynamodb/application/service_batch.go:36-111 | so it is with the first 25 writes of a batch; the others come back |
| DynamoEffects.ReadsFind | core/internal/resources/dynamodb/application/service_batch.go:113-178 | lookups find exactly the items that are there under their keys |
| DynamoEffects.BatchFinds | core/internal/resources/dynamodb/application/service_batch.go:113-178 | so it is with the first 100 keys of a batch; the others come back |
| DynamoEffects.TableCreated | core/internal/resources/dynamodb/application/service.go:123-175 | a new table has the trimmed names, the default key and billing mode where they are blank, and an activation time 200 milliseconds ahead; which error is given when |
| DynamoEffects.SchemaChanged | core/internal/resources/dynamodb/application/service.go:177-225 | a schema change sets the definitions and global indexes of a table and nothing else |
| DynamoBatch.RestConserves | core/internal/resources/dynamodb/application/service_batch.go:36-178 | what comes back unprocessed is exactly the flattened requests after the budget, in order |
| DynamoBatch.WritesConserved | core/internal/resources/dynamodb/application/service_batch.go:36-111 | the first min(25, n) writes are applied in order, the others come back, nothing lost or duplicated |
| DynamoBatch.DrainWritesAll | core/internal/resources/dynamodb/application/service_batch.go:36-111 | resubmitting what comes back ends, and leaves the items that applying all writes one by one leaves |
| DynamoBatch.KeyedIsValid | core/internal/resources/dynamodb/application/service_batch.go:61-91 | requests whose tables exist and whose documents have keys meet the condition of that theorem |
| DynamoBatch.ReadsConserved | core/internal/resources/dynamodb/application/service_batch.go:113-178 | the first min(100, n) keys are looked up in order, the others come back |
| DynamoBatch.CollectReadsAll | core/internal/resources/dynamodb/application/service_batch.go:113-178 | resubmitting ends, and collects the lookups of all keys in order |
| DynamoBatch.OptionsKeptIff | core/internal/resources/dynamodb/application/service_batch.go:150-170 | the requests come back with their options exactly if the table at which the budget runs out did not ask for a consistent read |
| DynamoBatch.ConsistencyForgotten | core/internal/resources/dynamodb/application/service_batch.go:150-170 | the input: a consistent read of more than 100 keys of one table gets the rest back as an ordinary read |
| DynamoOrder.UniqueStrings | core/internal/resources/dynamodb/application/service_query.go:700-718 | trimmed, no blanks, no duplicates, nothing lost |
| DynamoOrder.OrderIsTotal | core/internal/resources/dynamodb/application/service_query.go:597-641 | where each ordering attribute is of one kind, the comparison is a strict total order on the items, the forward result is the only sorted permutation and the backward result its exact reversal |
| DynamoOrder.KindsOrderIff | core/internal/resources/dynamodb/application/service_query.go:766-791 | lists whose values under the ordering attribute are texts, numbers or incomparable, of one or two of these kinds, are all in order exactly if the kinds are the same |
| DynamoOrder.KindsMakeCycle | core/internal/resources/dynamodb/application/service_query.go:766-791 | for any two different kinds, three items that the comparison puts in a circle |
| DynamoPaging.PagesComplete | core/internal/resources/dynamodb/application/service_query.go:522-595 | with sound cursors, following LastEvaluatedKey with any positive limit ends and yields the unpaged result in order, every item scanned once |
| DynamoPaging.PagingWorksIff | core/internal/resources/dynamodb/application/service_query.go:522-595 | following the cursors shows every item for every limit exactly if every cursor document is found first at its own item |
| DynamoReachable.PutsStored | core/internal/resources/dynamodb/application/service.go:327-355 | three puts under keys of their own store two items with one key document |
| DynamoReachable.CursorComesBack | core/internal/resources/dynamodb/application/service_query.go:522-595 | a scan of these items by pages of two shows one twice, and by pages of one comes back to it for ever |
| DynamoReachable.ReachableScan | core/internal/resources/dynamodb/application/service.go:445-471 | after any run that keeps items under their record keys, a scan followed page by page yields its unpaged answer |
| DynamoReachable.ReachableQuery | core/internal/resources/dynamodb/application/service.go:385-443 | after any such run, a query of the table, or of an index whose keys the matching items carry, followed page by page yields its unpaged answer |
| DynamoPaging.StoredByKeySound | core/internal/resources/dynamodb/application/service_query.go:575-679 | items with all key attributes that are stored under their record keys have sound cursors |
| DynamoReads.Unify | core/internal/resources/dynamodb/application/service_query.go:700-718 | the loop with its map of values met computes the unique names |
| DynamoReads.Filter | core/internal/resources/dynamodb/application/service.go:414-431 | the loop keeps the items that match the plan |
| DynamoReads.LocateStart | core/internal/resources/dynamodb/application/service_query.go:575-595 | the loop finds the position after the first item whose key document equals the cursor |
| DynamoReads.ReadPage | core/internal/resources/dynamodb/application/service_query.go:522-573 | the loop over the page counts what it scans, keeps what passes the filter and sets the cursor |
| DynamoReads.CandidatesMatch | core/internal/resources/dynamodb/application/service_query.go:200-237 | the candidates are exactly the items that match the plan, each once |
| DynamoAnswers.CompareIff | core/internal/resources/dynamodb/application/service_query.go:766-791 | texts compare by their characters, numbers by the numbers they spell, and other values not at all |
| DynamoAnswers.QueryAnswers | core/internal/resources/dynamodb/application/service_query.go:200-237 | an unpaged query answers exactly with the items of its table that are in the partition, whose sort key is there and stands in the wanted relation (each of the six comparisons, BETWEEN with both ends, begins_with) and that every filter clause accepts (of an absent attribute only attribute_not_exists), each with exactly the attributes that are asked for |
| DynamoAnswers.SortComparisons | core/internal/resources/dynamodb/application/service_query.go:153-198 | each of the six comparisons on texts and on numbers, spelled out |
| DynamoAnswers.AheadIff | core/internal/resources/dynamodb/application/service_query.go:617-641 | the order of two items: attribute by attribute, one that has it ahead of one that lacks it, then by key and table |
| DynamoAnswers.QueryOrders | core/internal/resources/dynamodb/application/service_query.go:597-615 | an answer is in that order, or backward in the opposite one, if each ordering attribute is of one kind |
| DynamoAnswers.TableOrderingNames | core/internal/resources/dynamodb/application/service_query.go:681-718 | a table orders by its partition and sort key |
| DynamoAnswers.IndexOrderingNames | core/internal/resources/dynamodb/application/service_query.go:681-718 | an index by its own keys, then those of the table |
| DynamoAnswers.ScanAnswers | core/internal/resources/dynamodb/application/service.go:445-471 | an unpaged scan answers exactly with the accepted items of the table, in the order of their keys |
| DynamoAnswers.PageHolds | core/internal/resources/dynamodb/application/service_query.go:522-573 | a page goes through as many items as the limit allows and are left, and has a cursor, of the key attributes of the last one, exactly if items are left |
| DynamoReads.QueryPages | core/internal/resources/dynamodb/application/service.go:385-443 | where the items that a query matches are stored under their record keys and carry the keys of its table or index, following its pages with any limit yields its unpaged answer in the same order; other items of the table do not matter |
| DynamoReads.ScanPages | core/internal/resources/dynamodb/application/service.go:445-471 | for items stored under their record keys, a scan followed page by page with any limit yields its unpaged answer in the same order |
| DynamoState.State.Clone | core/internal/resources/dynamodb/domain/state.go:318-338 | a fresh object with the same tables and items |
| DynamoState.State.UpsertItem | core/internal/resources/dynamodb/domain/state.go:248-272 | on the stored list: replaces or appends, one item for each table and key, every other item as before |
| DynamoState.State.DeleteItem | core/internal/resources/dynamodb/domain/state.go:274-282 | removes that item only; reports whether there was one |
| DynamoState.State.UpsertTable | core/internal/resources/dynamodb/domain/state.go:235-246 | replaces or appends, one table for each name |
| DynamoState.ListingOfTable | core/internal/resources/dynamodb/domain/state.go:185-201 | a listing goes through the items of the table in strictly ascending order of their keys |
| DynamoRepository.Validate | core/internal/resources/dynamodb/application/repository_sqlite.go:380-421 | the loops accept exactly the states with named, distinct tables and items that have keys and refer to them |
| DynamoRepository.PersistableIff | core/internal/resources/dynamodb/application/repository_sqlite.go:380-421 | whether a state is accepted depends on its tables and items, not on the order of its lists |
| DynamoRepository.Repository.Save | core/internal/resources/dynamodb/application/repository_sqlite.go:287-378 | all rows are replaced, or none if the state is not valid or the store fails |
| DynamoRepository.LoadsIff | core/internal/resources/dynamodb/application/repository_sqlite.go:210-285 | the stored rows load as the items that were saved exactly if all documents are well-formed |
| DynamoRepository.ReloadsIff | core/internal/resources/dynamodb/application/repository_sqlite.go:210-378 | a saved and reloaded state answers every lookup of a table or item as before exactly if its documents are well-formed |
| DynamoRepository.ReloadLists | core/internal/resources/dynamodb/application/repository_sqlite.go:210-378 | a saved and reloaded state lists the items of every table as before |
| DynamoRequests.PutKeepsKeysIff | core/internal/resources/dynamodb/application/service.go:327-355 | a put keeps every item under its record key exactly if its own key, trimmed, is the record key |
| DynamoRequests.DocumentPutKeepsKeysIff | core/internal/resources/dynamodb/application/service.go:327-355 | a put under the record key keeps every item under its record key exactly if that key has no white space around it |
| DynamoRequests.SpacedKeyMisplaced | core/internal/resources/dynamodb/application/service.go:327-355 | the input: the record key of an item with the partition value of a space and an a |
| DynamoRequests.UpdateKeepsKeysIff | core/internal/resources/dynamodb/application/service_update.go:15-88 | an update keeps every item under its record key exactly if the item exists |
| DynamoRequests.MissingItemUpdated | core/internal/resources/dynamodb/application/service_update.go:33-81 | the input: an update of an item that is not there stores a document without key attributes |
| DynamoRequests.BatchKeepsKeys | core/internal/resources/dynamodb/application/service_batch.go:36-111 | a batch always keeps every item under its record key |
| DynamoRequests.TransactionKeepsKeysIff | core/internal/resources/dynamodb/application/service_batch.go:180-287 | a transaction keeps every item under its record key exactly if the items that it updates exist |
| DynamoRuns.RunMovesForward | core/internal/resources/dynamodb/application/service.go:123-301 | over every run, schema changes included, no table disappears or changes its keys, and its status only moves from creating to active to deleting |
| DynamoRuns.DescribeLeaves | core/internal/resources/dynamodb/application/service.go:227-261 | a look at a table activates it exactly if it is being created and its activation time has come, and changes nothing else |
| DynamoRuns.DeletionLeaves | core/internal/resources/dynamodb/application/service.go:263-301 | a deletion leaves the table as one that is being deleted since then, and every other table as it was; with its second save refused it leaves a due table activated |
| DynamoRuns.RunTimely | core/internal/resources/dynamodb/application/service.go:146-261 | over every run in which the clock does not go back, no table is active before its delay is over |
| DynamoRuns.RunPlaced | core/internal/resources/dynamodb/application/service_batch.go:180-287 | over every run each item has its table |
| DynamoRuns.RunKeepsKeys | core/internal/resources/dynamodb/application/service_batch.go:448-481 | over every run of requests that keep keys each item is under its record key |
| DynamoRuns.BeginningKeys | core/internal/resources/dynamodb/domain/state.go:134-159 | a run from no tables starts that way; the bootstrap item is not under its record key |
| DynamoDocuments.UpdatedWellIff | core/internal/resources/dynamodb/application/service_update.go:51-71 | an update leaves a well-formed document exactly if what it sets, and does not overwrite later, is well-formed and what it does not name was |
| DynamoDocuments.BatchWellIff | core/internal/resources/dynamodb/application/service_batch.go:36-111 | a batch leaves well-formed documents exactly if each put that it carries out, and does not undo later, is well-formed |
| DynamoDocuments.TransactionWellIff | core/internal/resources/dynamodb/application/service_batch.go:180-287 | a transaction that meets no target twice leaves well-formed documents exactly if what each entry writes is well-formed |
| DynamoDocuments.StepWellIff | core/internal/resources/dynamodb/application/service.go:473-491 | exactly which requests keep all documents well-formed, told from the request: those that fail, and those that write well-formed documents only; for transactions that meet a target twice these suffice |
| DynamoDocuments.RunWritesWell | core/internal/resources/dynamodb/application/service.go:473-491 | over every run of such requests all documents are well-formed |
| DynamoService.Service.Commit | core/internal/resources/dynamodb/application/service.go:473-491 | the new state is installed and published, or everything stays as it was if the repository refuses it |
| DynamoService.Service.PutItem | core/internal/resources/dynamodb/application/service.go:327-355 | service, repository rows and snapshot agree afterwards, on success and on every failure; on failure the items are the old ones |
| DynamoService.Service.DeleteItem | core/internal/resources/dynamodb/application/service.go:357-383 | service, repository rows and snapshot agree afterwards, and on failure the items are the old ones |
| DynamoService.Service.UpdateItem | core/internal/resources/dynamodb/application/service_update.go:15-88 | service, repository rows and snapshot agree afterwards, and on failure the items are the old ones, the loop over the operations included; what it makes of the items is DynamoEffects.UpdateLeaves |
| DynamoService.Service.BatchWriteItem | core/internal/resources/dynamodb/application/service_batch.go:36-111 | service, repository rows and snapshot agree afterwards, and on failure the items are the old ones; the nested loops with the shared budget apply the first writes and give back the rest |
| DynamoService.Service.BatchGetItem | core/internal/resources/dynamodb/application/service_batch.go:113-178 | the nested loops look up the first keys and give back the rest; nothing changes |
| DynamoService.Service.TransactWriteItems | core/internal/resources/dynamodb/application/service_batch.go:180-287 | all or nothing: a refused transaction leaves all items as they were, an accepted one is what the entries make of a copy of the state, which DynamoEffects.TransactLeaves spells out |
| DynamoService.Service.CreateTable | core/internal/resources/dynamodb/application/service.go:123-175 | agreement as for PutItem; the new table is creating until its activation time |
| DynamoService.Service.UpdateTableSchema | core/internal/resources/dynamodb/application/service.go:177-225 | memory, rows and snapshot agree afterwards; the keys of the table stay, and a request that adds nothing is answered without a commit |
| DynamoService.Service.DeleteTable | core/internal/resources/dynamodb/application/service.go:263-301 | exactly what two commits leave: the activation of a due table, then the deletion, each only if the repository takes it |
| DynamoService.HalfDeleted | core/internal/resources/dynamodb/application/service.go:263-301 | the case: with the first save accepted and the second one refused, the request fails and the table stays activated |
| DynamoService.AnswersAreSteps | core/internal/resources/dynamodb/application/service.go:473-491 | what PutItem, DeleteItem, UpdateItem and BatchWriteItem promise is a step of a run |
| DynamoService.TransactionsAreSteps | core/internal/resources/dynamodb/application/service_batch.go:180-287 | what TransactWriteItems promises is a step of a run |
| DynamoService.TableRequestsAreSteps | core/internal/resources/dynamodb/application/service.go:123-301 | what CreateTable, UpdateTableSchema, DeleteTable and DescribeTable promise is a step of a run |
| DynamoService.Service.DescribeTable | core/internal/resources/dynamodb/application/service.go:227-261 | activates a due table, and answers for tables that are not deleted |
| DynamoService.Service.Query | core/internal/resources/dynamodb/application/service.go:385-443 | the answer is the page of the sorted candidates of the plan, which DynamoAnswers.QueryAnswers and QueryOrders spell out; nothing changes |
| DynamoService.Service.Scan | core/internal/resources/dynamodb/application/service.go:445-471 | the answer is the page of the table's listing; nothing changes |
| DynamoService.RestartIff | core/internal/resources/dynamodb/application/repository_sqlite.go:210-285 | a service that restarts on its repository answers every lookup as before exactly if its documents are well-formed |
| DynamoService.RestartOverRuns | core/internal/resources/dynamodb/application/repository_sqlite.go:210-285 | after every run a restart is unseen exactly if the documents are well-formed, and they are if each request that went through wrote only such |
| AttributeCodec.MarshalFields | core/internal/resources/dynamodb/application/repository_sqlite.go:656-684 | the loop over the sorted names writes the stable encoding of a map |
| AttributeCodec.MarshalValue | core/internal/resources/dynamodb/application/repository_sqlite.go:686-722 | the encoding of a value, field by field |
| AttributeCodec.RoundTripIff | core/internal/resources/dynamodb/application/repository_sqlite.go:686-877 | decoding the encoding of a nested value gives it back exactly if it has exactly one field at every depth |
| AttributeCodec.OtherValuesLost | core/internal/resources/dynamodb/application/repository_sqlite.go:686-877 | the inputs: a value without a field comes back as NULL, one with a text and a number as the text |
| AttributeCodec.DocumentRoundTripIff | core/internal/resources/dynamodb/application/repository_sqlite.go:656-760 | decoding the encoding of a document gives it back exactly if every value in it is well-formed |
| AttributeCodec.Canonical | core/internal/resources/dynamodb/application/repository_sqlite.go:656-722 | equal documents have equal encodings, in whatever order their maps are gone through, and different ones different encodings |
| AttributeCodec.FieldsAscend | core/internal/resources/dynamodb/application/repository_sqlite.go:656-684 | the fields of a map are written in the ascending order of their names, each once |
| WireCodec.RoundTripIff | core/internal/delivery/http/dynamodb_native.go:2688-2802 | wire to domain to wire is the identity exactly on the values with one field at every depth in which no map has the form of an encoded set |
| WireCodec.DomainForm | core/internal/delivery/http/dynamodb_native.go:2688-2739 | texts, numbers and flags stay what they are, maps and lists keep names and places, and a set becomes a map of its kind and its elements in order |
| WireCodec.Injective | core/internal/delivery/http/dynamodb_native.go:2688-2739 | on such values the domain form is injective |
| WireCodec.UnreservedReturns | core/internal/delivery/http/dynamodb_native.go:2688-2802 | values without the reserved key are such values |
| WireCodec.DisguisedIsLost | core/internal/delivery/http/dynamodb_native.go:2753-2802 | a map that has the form of a set comes back as a set |
| FilterSplitter.SplitFilterExpression | core/internal/resources/dynamodb/application/service_query.go:416-453 | the loop with its depth and start index computes the specification of the split |
| FilterSplitter.SplitJoined | core/internal/resources/dynamodb/application/service_query.go:416-482 | splitting a join of trimmed, non-empty, balanced clauses without a standalone AND of their own gives back exactly the clauses, with AND in any case and any white space around it |
| AwsChunked.DecodeBody | core/internal/delivery/http/s3_native.go:1375-1412 | the loop computes the specification of the decoder and ends |
| AwsChunked.DecodesIff | core/internal/delivery/http/s3_native.go:1375-1412 | the decoder accepts exactly the inputs that are framed chunks up to a zero chunk, and answers with the data of the chunks |
| AwsChunked.ChunkingIsIrrelevant | core/internal/delivery/http/s3_native.go:1375-1412 | however a body is cut into non-empty chunks, with whatever extensions and whatever line ends in the data, the decoder returns the body |
| AwsChunked.CutShort | core/internal/delivery/http/s3_native.go:1385-1408 | a chunk that is cut short is refused, except that the two largest sizes wrap around when 2 is added and run past the input |

## Left out

- MD5 is taken to be free of collisions, and the base64 continuation token to be its own decoding: both are datatypes.
- The clock is read once in a request, and the answers of the repository to a save are parameters. A default retention
  date is computed by the calendar outside of the model. The time 0 stands for Go's zero time.
- Absent and empty maps are not distinguished; nested governance maps are maps from bucket and key; configurations of
  all kinds, ACLs, tags and their bodies are opaque bytes, and their requests are modelled on values only.
- The memory payload store is modelled; payload files, temporary files and renames are not.
- The S3 state file is the state that was written, as a value, not its JSON text. A missing file is the file of the
  empty state. Deleting a payload and storing one for a put do not fail.
- Parts and uploads can be listed, buckets and configurations can be read: easy lookups that are not modelled.
- S3Service.Service.CreateMultipartUpload: the identifier, made from the clock and the number of uploads, is a parameter.
- S3Service.Service.UploadPart: parts and uploads have no creation time.
- JSON is modelled as a tree, with exact field names (Go folds their case), not as text.
- Expressions for conditions, updates, keys, filters and projections are modelled from their parsed form. An
  error in the text of a condition and a condition that does not hold are one error.
- Numbers are compared through an abstract parser and added by an abstract sum: floating-point rounding is not modelled.
- DynamoService.Service.CreateTable: the normalization and validation of definitions and indexes is a parameter.
- DynamoService.Service.UpdateTableSchema: so is what a schema change makes of definitions and indexes.
- DynamoDocuments.StepWellIff: for a transaction that meets a target twice, with a condition check in between, it is
  shown only that well-formed writes suffice, because a later entry can undo or mend what an earlier one wrote.
- DynamoRepository.Validate: the checks of index definitions are left out; stored tables are taken to be normalized.
- DynamoState.State.UpsertTable: stores the table as it is given, without the normalization of the source.
- DynamoState.State.Clone: items and attributes are values here, so that the copy shares no nested storage by
  construction; the deep copies of the source are not modelled.
- ListTables, GetItem and TransactGetItems are lookups that are not modelled.
- The SQLite transaction is one step that replaces all rows or none.
- sort.SliceStable is modelled as stable insertion.
- FilterSplitter.SplitFilterExpression: works on characters, where the source works on bytes; the keyword and the
  white space it looks for are ASCII.
- AwsChunked.DecodeBody: chunk sizes are trimmed of ASCII white space only.
- Locks and concurrent requests, HTTP, XML, the SQS and SNS adapters, the command line and the user interfaces are not
  part of this model.
