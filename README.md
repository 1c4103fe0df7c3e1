# Firestore reorganisation scripts, modelled in Dafny

This project models the six Node scripts that move a flat Firestore layout
under per-organization collections, and proves properties about them. The
scripts are:

- **`migrate_to_org_hierarchy.cjs`** copies the documents of the flat
  `users`, `projects`, `location_settings`, `work_locations` and
  `user_groups` collections that match an organization under
  `organizations/{orgId}/…`. It also turns every flat user into a
  three-field lookup document.
- **`merge_user_docs.cjs`** merges one flat user into another.
- **`merge_org_user_docs.cjs`** merges one organization user into another
  and rebuilds the target's flat lookup.
- **`scan_duplicate_org_users.cjs`** groups an organization's users by
  lower-cased email.
- **`verify_hierarchy.cjs`** reports on an organization's layout.
- **`migrate_location_settings_to_org.cjs`** copies one flat settings
  document under its organization.

The store is an in-memory map from path to field map (`Firestore.Store`).
A path alternates collection names and document ids. A document's
sub-collections are the longer paths that extend it, so deleting a document
leaves them in place.

- **Writes.** The store has three writes:
  - `SetDoc`, a merge-set (`old + new`) or a replace-set;
  - `DeleteDoc`;
  - `Commit` of a batch.

  A ghost log records every write call. This lets the contracts state how
  writes are grouped into batches and in what order they happen.
- **Reads.** Reads are functions of the map:
  - `Listing` lists a collection in id order;
  - `Where` filters a collection;
  - `Limit` takes a prefix;
  - `SubcollectionNames` discovers the names of a document's
    sub-collections.
- **Scripts.** Each script is a method on the store. Its `ensures` ties the
  new store to a function of the old one. Lemmas then state what that
  function does:
  - conservation of sub-collection documents;
  - the lookup shape;
  - idempotence of the collection copy;
  - non-idempotence of the user path;
  - the frames;
  - what the cascade delete removes.

Every log entry a script adds is a non-empty batch of at most 400 writes
(`GrewWithin`).

Two behaviours of the code are proved as they are:

- **A second migration run changes the org users.** Re-running
  `migrate_to_org_hierarchy.cjs` is not a no-op for users. The lookup
  written by the first run still matches the query, so the second run
  merges `{organizationId, email, userId}` into the org user
  (`MigrateHierarchy.UsersRerunMergesLookup`). Only the plain collection
  copy is idempotent (`MigrateHierarchy.MigratedCollectionIdempotent`).
- **Merging a user into itself loses it.** Neither merge script rejects
  source == target, and such a run loses the user:
  - the cascade delete removes the freshly merged document;
  - in the org script, the lookup is deleted right after it is rewritten,
    even with `--no-delete`.

  See `MergeOrgUserDocs.SelfMergeLosesUser` and
  `MergeUserDocs.UserSelfMergeLosesUser`. The other lemmas about the merges
  assume `s != t`.

Points where the scripts' comments and their code differ, or where the code does something easy to miss; the model follows the code:

- **Source lookup deletion.** The source lookup is deleted whenever it
  existed, whatever `--no-delete` says (`merge_org_user_docs.cjs:104-107`).
- **Email of the rebuilt lookup.** It is
  `targetLookup.email || sourceLookup.email || ''`, taken from the two flat
  lookups.
- **Settings check in `verify_hierarchy.cjs`.** The settings line is
  "missing" only when the collection is empty. Otherwise it says whether a
  document keyed by the organization id exists.
- **Unknown organization.** The migration exits 1 for an unknown
  organization. The verifier exits 2.
- **`merge_user_docs.cjs` arguments.** It takes its two ids as the first
  two positional arguments.

## Model

| member | source | states |
|---|---|---|
| Firestore.Listing | scripts/merge_user_docs.cjs:59 | `col.get()` yields exactly the documents stored directly in the collection. There is one per id, with its stored data, in strictly increasing id order. |
| Firestore.Where | scripts/migrate_to_org_hierarchy.cjs:32-36 | `where(key, '==', v).get()` yields exactly the stored documents of the collection whose field equals `v` (a missing field reads as undefined), in id order. |
| Firestore.FalsyValues | scripts/verify_hierarchy.cjs:80 | A value is falsy iff it is null or undefined, `false`, `0` or `''`. |
| Firestore.Or | scripts/verify_hierarchy.cjs:37 | `a \|\| b` is one of its operands. It is truthy iff either operand is, and it is `a` whenever `a` is truthy. |
| Firestore.MergedFields | scripts/merge_user_docs.cjs:51 | A merge-set keeps the document's old keys and adds the written ones. The written values win, and old fields not written survive. |
| Firestore.ApplyEffect | scripts/merge_user_docs.cjs:51 | One write sets its path to the merged or the new fields, or removes it. Every other path keeps its document. |
| Firestore.ApplyAllConcat | scripts/migrate_to_org_hierarchy.cjs:52-59 | Applying two lists of writes one after the other is the same as applying their concatenation. |
| Firestore.ApplyAllFrame | scripts/migrate_to_org_hierarchy.cjs:55 | A path that no write in the list addresses keeps its document. |
| Firestore.Limit | scripts/verify_hierarchy.cjs:76 | `limit(n)` keeps the first `min(n, size)` documents of the ordered listing. |
| Firestore.SubcollectionNames | scripts/merge_user_docs.cjs:56 | `listCollections()` names exactly the collections under the document that hold a document somewhere below them, sorted and without repeats. |
| Firestore.Store.SetDoc | scripts/merge_user_docs.cjs:51 | A merge-set leaves the old fields overridden by the new ones. A replace-set leaves exactly the new fields. It adds one log entry. |
| Firestore.Store.DeleteDoc | scripts/merge_user_docs.cjs:95 | Removes exactly that path. It adds one log entry. |
| Firestore.Store.Commit | scripts/merge_user_docs.cjs:70-75 | Applies the batch's writes in order. It needs at most 500 writes and adds one log entry. |
| Args.ParseOrgId | scripts/migrate_to_org_hierarchy.cjs:134-139 | The `--org-id=` loop ends with the value of the last argument that carries the prefix. |
| Args.MissingIsFalsy | scripts/migrate_to_org_hierarchy.cjs:141 | The usage check fires iff the parsed id, as a script value (null when unset), is falsy. |
| Args.LastValueIsLast | scripts/scan_duplicate_org_users.cjs:11-12 | That value is the second `=`-part of the last argument with the prefix, or none when no argument has it. |
| Args.SecondPart | scripts/migrate_to_org_hierarchy.cjs:137 | `split('=')[1]` is the text after the first `=`, up to the next `=` or the end. |
| Batching.Chunk | scripts/migrate_to_org_hierarchy.cjs:22-26 | The pieces concatenate to the input. Each is non-empty and at most `size` long, and all but the last are exactly `size` long. There are ceil(n/size) pieces. |
| Batching.WriteInBatches | scripts/migrate_to_org_hierarchy.cjs:52-59 | The store ends as if the snapshot's writes were applied one by one. The log gains ceil(n/400) batches of at most 400 writes, whose concatenation is exactly those writes in order. |
| Batching.FillBatch | scripts/migrate_to_org_hierarchy.cjs:53-57 | A batch holds one merge-set (or deletion) per document of the piece, in order, under the same id. |
| Batching.CopyEffect | scripts/migrate_to_org_hierarchy.cjs:54-57 | After a merge-copy, each snapshot document's fields are merged over the target's fields under the same id. |
| Batching.BatchFrame | scripts/migrate_to_org_hierarchy.cjs:55 | Batched writes touch only the documents directly in the target collection. |
| Batching.OutsideSnapshot | scripts/migrate_to_org_hierarchy.cjs:55 | Paths that are not the target of a snapshot document keep their contents. |
| Batching.MergeCopyTwice | scripts/migrate_to_org_hierarchy.cjs:52-59 | Merge-copying the same snapshot again leaves the store unchanged. |
| Batching.EraseEffect | scripts/merge_user_docs.cjs:87-91 | Batched deletion removes exactly the snapshot's documents and leaves every other document as it was. |
| Subcollections.CopySubcollectionsOf | scripts/merge_user_docs.cjs:56-79 | A dry run, or a document without sub-collections, leaves the log as it was; a dry run leaves the store too. Otherwise it merge-copies every discovered sub-collection, in name order, each read when the loop reaches it. |
| Subcollections.CopyCollection | scripts/merge_user_docs.cjs:57-78 | One iteration of the copy loop advances the copied prefix of names by one. |
| Subcollections.BatchCollection | scripts/merge_user_docs.cjs:59-78 | A dry run writes nothing. An empty collection adds nothing to the log. Otherwise the batched writes for the listed documents are committed. |
| Subcollections.DeleteCollection | scripts/merge_user_docs.cjs:85-93 | One iteration of the delete loop advances the erased prefix of names by one. |
| Subcollections.CascadeDeleteOf | scripts/merge_user_docs.cjs:84-95 | Erases every sub-collection of the document in batches, then deletes the document. |
| Subcollections.CopyFrame | scripts/merge_user_docs.cjs:72 | The copy writes nothing outside the copied sub-collections of the target. |
| Subcollections.CopyConserves | scripts/merge_user_docs.cjs:56-79 | When source and target are apart, every document of a copied sub-collection lands under the target, with the same collection and id, merged over the old target fields. |
| Subcollections.DeleteSubcollectionsEffect | scripts/merge_user_docs.cjs:84-94 | Removes exactly the documents directly in the named sub-collections. Nothing else changes. |
| Subcollections.CascadeDeleteEffect | scripts/merge_user_docs.cjs:84-96 | Afterwards the document is gone and every one of its sub-collections is empty. Every other path, deeper descendants included, is unchanged. |
| UserMerge.Normalized | scripts/merge_org_user_docs.cjs:51-52 | A truthy id field is set to the wanted value. A falsy one and every other field stay. The keys are unchanged. |
| UserMerge.MergeAndCopyOf | scripts/merge_user_docs.cjs:48-79 | A dry run changes nothing. Otherwise it merges the payload into the target and then copies the sub-collections. |
| UserMerge.MergeAndCopyTarget | scripts/merge_user_docs.cjs:51 | The target ends with its old fields overridden by the payload. |
| UserMerge.MergeAndCopyFrame | scripts/merge_user_docs.cjs:51-79 | Nothing outside the target's subtree changes. |
| UserMerge.MergeAndCopyConserves | scripts/merge_user_docs.cjs:56-79 | Every source sub-collection document is merged under the target, with the same collection and id. |
| UserMerge.CascadeSparesTarget | scripts/merge_user_docs.cjs:82-96 | Deleting a different document at the same depth leaves the target and its sub-collection documents alone. |
| MergeUserDocs.Positional | scripts/merge_user_docs.cjs:16-17 | A positional id is empty iff the argument is missing or empty. Otherwise it is the argument itself. |
| MergeUserDocs.MergeUserMain | scripts/merge_user_docs.cjs:15-99 | Exits 1 with no write when a positional id is missing or empty, or the source is absent. A dry run changes nothing. A committed run leaves the merge, the copy and the optional cascade delete. |
| MergeUserDocs.UserMergeTarget | scripts/merge_user_docs.cjs:43-51 | `users/{t}` ends as its old fields overridden by the source's, with `userId` normalised. |
| MergeUserDocs.UserMergeConserves | scripts/merge_user_docs.cjs:56-79 | Every source sub-collection document ends up under the target, even after the cascade delete. |
| MergeUserDocs.UserMergeSource | scripts/merge_user_docs.cjs:82-99 | With deletion the source and all of its sub-collection documents are gone. With `--no-delete` they are untouched. |
| MergeUserDocs.UserSelfMergeLosesUser | scripts/merge_user_docs.cjs:82-96 | With source == target, the user and its sub-collection documents are gone after the run. |
| MergeOrgUserDocs.ParseArgs | scripts/merge_org_user_docs.cjs:27-38 | The two flags are set exactly when given verbatim. Each id is the last value carrying its prefix. |
| MergeOrgUserDocs.FlagsExclusive | scripts/merge_org_user_docs.cjs:30-36 | An argument matches at most one branch of the `if`/`else if` chain. |
| MergeOrgUserDocs.TargetLookup | scripts/merge_org_user_docs.cjs:100-103 | The lookup has exactly `organizationId`, `userId` and `email`. `email` is the target lookup's if truthy, else the source lookup's if truthy, else `''`. |
| MergeOrgUserDocs.RebuildLookups | scripts/merge_org_user_docs.cjs:88-107 | Replaces `users/{t}`, then deletes `users/{s}` if it existed when read. The log gains exactly these two writes, in this order. |
| MergeOrgUserDocs.MergeOrgUsers | scripts/merge_org_user_docs.cjs:40-128 | A missing source fails with no write. A dry run changes nothing. A committed run ends in `OrgMerge`, with the lookup writes logged consecutively. |
| MergeOrgUserDocs.CommitOrgMerge | scripts/merge_org_user_docs.cjs:60-125 | Merge and copy, lookup rebuild, then the cascade delete unless `--no-delete`. The lookup writes stay in the log in order. |
| MergeOrgUserDocs.LookupsKept | scripts/merge_org_user_docs.cjs:60-85 | Merging and copying under `organizations` leaves both flat lookups as they were. |
| MergeOrgUserDocs.MergeOrgMain | scripts/merge_org_user_docs.cjs:131-141 | Exits 1 with no write when an id is missing or empty, or the source org user is absent. Otherwise the result is `OrgMerge`, or no change in a dry run. |
| MergeOrgUserDocs.BeforeCascadeKeepsSource | scripts/merge_org_user_docs.cjs:60-107 | Before the cascade delete, the source's subtree is unchanged. |
| MergeOrgUserDocs.BeforeCascadeLookups | scripts/merge_org_user_docs.cjs:99-107 | Before the cascade delete, `users/{t}` holds the rebuilt lookup and `users/{s}` is gone. |
| MergeOrgUserDocs.OrgMergeTarget | scripts/merge_org_user_docs.cjs:49-60 | The target org user ends as its old fields overridden by the source's, with both ids normalised. |
| MergeOrgUserDocs.OrgMergeConserves | scripts/merge_org_user_docs.cjs:65-85 | Every source sub-collection document ends up under the target, with the same collection and id, merged. |
| MergeOrgUserDocs.OrgMergeConservesAt | scripts/merge_org_user_docs.cjs:65-85 | One source sub-collection document ends up under the target, with the same collection and id, merged, whether or not the source is deleted. |
| MergeOrgUserDocs.OrgMergeLookups | scripts/merge_org_user_docs.cjs:99-107 | `users/{t}` is exactly the rebuilt lookup and `users/{s}` is gone, whatever `--no-delete` says. |
| MergeOrgUserDocs.OrgMergeSource | scripts/merge_org_user_docs.cjs:111-128 | With deletion the source org user and its sub-collection documents are gone. With `--no-delete` they are untouched. |
| MergeOrgUserDocs.SelfMergeLosesUser | scripts/merge_org_user_docs.cjs:103-125 | With source == target, the org user is gone, and an existing lookup is gone even with `--no-delete`. |
| MigrateHierarchy.Query | scripts/migrate_to_org_hierarchy.cjs:31-36 | The query yields exactly the flat documents that match the organization, in id order. |
| MigrateHierarchy.MigrateCollection | scripts/migrate_to_org_hierarchy.cjs:28-63 | Returns the match count in both modes. An empty match or a dry run writes nothing. A committed run merge-copies every match under the organization. |
| MigrateHierarchy.MigratedCollectionEffect | scripts/migrate_to_org_hierarchy.cjs:50-59 | Each match is merged under the same id: its fields win and target fields it lacks survive. Nothing else changes. |
| MigrateHierarchy.CollectionListingKept | scripts/migrate_to_org_hierarchy.cjs:50-59 | Copying one collection leaves every flat collection's listing as it was. |
| MigrateHierarchy.MigratedCollectionIdempotent | scripts/migrate_to_org_hierarchy.cjs:32-59 | A second committed run selects the same documents and leaves the store unchanged. |
| MigrateHierarchy.LookupData | scripts/migrate_to_org_hierarchy.cjs:115-119 | The lookup has exactly `organizationId` (the user's), `email` (the user's if truthy, else `''`) and `userId` (the id). |
| MigrateHierarchy.MigrateUsers | scripts/migrate_to_org_hierarchy.cjs:65-128 | Returns the number of selected users in both modes. A dry run or an empty selection writes nothing. Otherwise it migrates every user in id order. |
| MigrateHierarchy.MigrateUser | scripts/migrate_to_org_hierarchy.cjs:89-122 | Merges the user into its org user, copies its sub-collections, then replaces the flat document with the lookup. |
| MigrateHierarchy.MigratedUserFrame | scripts/migrate_to_org_hierarchy.cjs:94-120 | One user's step touches only its flat document and its org user's subtree. |
| MigrateHierarchy.MigratedUsersLookup | scripts/migrate_to_org_hierarchy.cjs:120 | After the loop, every user's flat document is its lookup. |
| MigrateHierarchy.MigratedUsersOrgUser | scripts/migrate_to_org_hierarchy.cjs:94-95 | After the loop, every user's data is merged over its org user. |
| MigrateHierarchy.MigratedUsersConserves | scripts/migrate_to_org_hierarchy.cjs:97-112 | After the loop, every sub-collection document of every user is merged under its org user. |
| MigrateHierarchy.UsersLookupReplaced | scripts/migrate_to_org_hierarchy.cjs:115-120 | Every selected flat user holds exactly the lookup fields. The other fields are dropped. |
| MigrateHierarchy.UsersOrgDocMerged | scripts/migrate_to_org_hierarchy.cjs:94-95 | Every selected user's fields are merged over its org user. |
| MigrateHierarchy.UsersSubcollectionsConserved | scripts/migrate_to_org_hierarchy.cjs:97-112 | Every document of every sub-collection of a selected user reappears under its org user, with the same collection and id. |
| MigrateHierarchy.UsersMigrationFrame | scripts/migrate_to_org_hierarchy.cjs:89-123 | Outside `organizations`, only the selected flat user documents change. The source sub-collections stay. |
| MigrateHierarchy.UsersRerunMergesLookup | scripts/migrate_to_org_hierarchy.cjs:69-70 | A second user migration merges the lookup into the org user and changes the store. |
| MigrateHierarchy.MigrationSelections | scripts/migrate_to_org_hierarchy.cjs:166-170 | Each later step selects what it would have selected on the initial store. |
| MigrateHierarchy.MigrateAll | scripts/migrate_to_org_hierarchy.cjs:163-170 | The total is the sum of the five initial match counts. A dry run changes nothing. Otherwise the store ends in `Migration`. |
| MigrateHierarchy.MigrateMain | scripts/migrate_to_org_hierarchy.cjs:130-170 | Exits 1 with no write when the id is missing or empty, or the organization is absent. Otherwise it returns 0 with the total. |
| ScanDuplicateOrgUsers.Lower | scripts/scan_duplicate_org_users.cjs:30 | Keeps the length and leaves no capital letter. Every other character stays, and each capital becomes its small letter. |
| ScanDuplicateOrgUsers.LowerIdempotent | scripts/scan_duplicate_org_users.cjs:30 | Lower-casing a key a second time changes nothing. |
| ScanDuplicateOrgUsers.DisplayName | scripts/scan_duplicate_org_users.cjs:32 | The name is `name` when truthy, else `displayName` when truthy, else `''`. |
| ScanDuplicateOrgUsers.EmailKey | scripts/scan_duplicate_org_users.cjs:30 | A falsy email gives `''` and a string gives its lower case. A truthy non-string throws. |
| ScanDuplicateOrgUsers.EntriesOfExact | scripts/scan_duplicate_org_users.cjs:28-33 | The scan fails iff some email throws. Otherwise there is one entry per user, in order, with its key and `name \|\| displayName \|\| ''`. |
| ScanDuplicateOrgUsers.GroupByEmail | scripts/scan_duplicate_org_users.cjs:27-34 | `byEmail` maps each key to exactly its users, in scan order. The key order is first appearance. It fails iff some email throws. |
| ScanDuplicateOrgUsers.ReportGroups | scripts/scan_duplicate_org_users.cjs:36-43 | Yields the groups of more than one user under a non-empty key, in key order. `dupCount` is their number. |
| ScanDuplicateOrgUsers.ScanMain | scripts/scan_duplicate_org_users.cjs:10-46 | Gives a usage error, no users, a failing email, or the report with its count. The store is never written. |
| ScanDuplicateOrgUsers.KeysInOrderExact | scripts/scan_duplicate_org_users.cjs:31-33 | The key list holds exactly the keys of the users, without repeats. |
| ScanDuplicateOrgUsers.GroupExact | scripts/scan_duplicate_org_users.cjs:31-33 | A group holds exactly the users with that key. |
| ScanDuplicateOrgUsers.GroupsPartition | scripts/scan_duplicate_org_users.cjs:27-34 | Every user is in its key's group, and the group sizes add up to the number of users. |
| ScanDuplicateOrgUsers.ReportedExact | scripts/scan_duplicate_org_users.cjs:36-43 | A group is reported iff its key is non-empty and it has more than one member. |
| ScanDuplicateOrgUsers.ThreeDuplicatesOneUnique | scripts/scan_duplicate_org_users.cjs:36-46 | Three users with one email plus one other user give exactly one group of three. |
| VerifyHierarchy.ProbeIsExistence | scripts/verify_hierarchy.cjs:39-40 | A `limit(1)` probe is non-empty iff the collection holds a document. |
| VerifyHierarchy.Probe | scripts/verify_hierarchy.cjs:39-42 | The flag is true iff the collection is non-empty. |
| VerifyHierarchy.Label | scripts/verify_hierarchy.cjs:37 | The label is `name` when truthy, else `email` when truthy, else the user id. |
| VerifyHierarchy.DescribeUser | scripts/verify_hierarchy.cjs:35-42 | The line has the id, the label `name \|\| email \|\| uid`, and whether the user has any schedule and any leave. |
| VerifyHierarchy.SampleUsers | scripts/verify_hierarchy.cjs:34-44 | There is one line per sampled user, in order. |
| VerifyHierarchy.SampleOrgUsers | scripts/verify_hierarchy.cjs:34 | The sample describes the first min(10, n) listed org users, in id order. |
| VerifyHierarchy.FindById | scripts/verify_hierarchy.cjs:68 | `find` returns the first document with the id, or nothing iff there is none. |
| VerifyHierarchy.PreferredSettingsDoc | scripts/verify_hierarchy.cjs:64-69 | The previewed document is the one keyed by the organization id if present, else the first listed. |
| VerifyHierarchy.KeyPreview | scripts/verify_hierarchy.cjs:71-72 | Shows the sorted keys, cut to at most 8, with the ellipsis flag iff there are more than 8. |
| VerifyHierarchy.KeyPreviewSmallest | scripts/verify_hierarchy.cjs:71-72 | Every key left out sorts after every key shown. |
| VerifyHierarchy.SettingsSummaryMeaning | scripts/verify_hierarchy.cjs:59-73 | The line is "missing" iff the collection is empty. Otherwise it has the count, whether the organization-id document exists, and the preview of the chosen document. |
| VerifyHierarchy.LookupSampleMeaning | scripts/verify_hierarchy.cjs:76 | The sample holds at most five stored flat users of the organization, in id order, the ones with the smallest ids, and all of them when there are fewer than five. |
| VerifyHierarchy.MigratedLookupShape | scripts/verify_hierarchy.cjs:80 | A lookup written by the hierarchy migration passes the shape check iff the user it replaced had a truthy organization id and email and a non-empty id. |
| VerifyHierarchy.CheckLookups | scripts/verify_hierarchy.cjs:76-82 | The flag is true iff every sampled lookup has truthy `organizationId`, `email` and `userId`, so it holds vacuously when there are none. |
| VerifyHierarchy.Report | scripts/verify_hierarchy.cjs:28-82 | For an existing organization: the document counts of its users, projects, user groups and work locations, the user sample, the settings line and the lookup flag. |
| VerifyHierarchy.VerifyMain | scripts/verify_hierarchy.cjs:8-82 | Exits 1 without an id and 2 for an unknown organization. Otherwise it exits 0 with the report. It never writes. |
| MigrateLocationSettings.SettingsPayload | scripts/migrate_location_settings_to_org.cjs:31-34 | The payload has the source fields plus `organizationId` and `migratedAt`. The two stamps override same-named source fields. |
| MigrateLocationSettings.MigrateSettingsMain | scripts/migrate_location_settings_to_org.cjs:9-35 | Exits 1 without an id. An absent source writes nothing. Otherwise it does one merge-set of the payload at `organizations/{o}/location_settings/{o}`. |
| MigrateLocationSettings.SettingsMigratedEffect | scripts/migrate_location_settings_to_org.cjs:28-35 | The target gets every payload field and keeps its other fields. Nothing else changes. |
| MigrateLocationSettings.SettingsMigratedIdempotent | scripts/migrate_location_settings_to_org.cjs:28-35 | Running the copy twice leaves the same store as running it once. |

## Left out

- Firebase initialisation, credentials, console output and the
  `main().catch` / `process.exit` plumbing are not modelled. Exit codes are
  returned values, and a thrown "source does not exist" is exit 1.
- The `Promise.all` reads are modelled one after the other. The reads are
  independent, so this gives the same result.
- Batch atomicity and commit failure are not modelled: every commit
  succeeds.
- Nested merge of map-valued fields is not modelled. Field values are
  opaque, so a merge-set is a shallow right-biased map union.
- `serverTimestamp()` is one marker value. The settings copy is therefore
  idempotent in the model, although each run stamps a new time.
- Numbers are integers. NaN and floating point are not modelled, so NaN's
  falsiness is missing.
- ScanDuplicateOrgUsers.Lower: `toLowerCase` is modelled on ASCII letters
  only, because Unicode case mapping is not in the model.
- VerifyHierarchy.KeyPreview: field names are sorted by code point, as the
  store orders ids. The script's sort compares UTF-16 code units, which
  orders differently only names that mix characters above U+FFFF with
  characters from U+E000 to U+FFFF.
- Firestore.Where: a missing field and a null field both read as Null, so
  an equality filter on null would also match documents without the field,
  which Firestore's filter does not. The scripts only filter on string ids.
- Document ids are single path segments. An id containing `/` is not
  modelled: the store would treat it as a longer path or reject it (so a
  script given such an id would throw and exit 1), while the model treats
  it as an id that names no document.
- VerifyHierarchy.VerifyMain: the `checked` counter is kept in
  `SampleUsers`, but the script never prints or returns it, so no contract
  mentions it.
- The "before any store access" part of the usage checks is not stated.
  Those contracts only say that no write happens and which exit code
  results.
- ios/Runner/AppDelegate.swift is not part of this model. It only makes
  foreign calls to the Flutter and Google Maps SDKs.
