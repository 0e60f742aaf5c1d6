# OpenS3: a verified model

OpenS3 is a single-node S3 object store. Its state is an ordered, transactional key-value store of
records (buckets, object versions, null pointers, uploads, parts, identities) and a directory of blob
files. This project models the logic that decides over that state and proves what it keeps. The proofs
are about the model; nothing here executes the original program.

The clusters, hardest first:

* **Object-store protocol** (`Records`, `Service`, `Protocol`, `Safety*`, `Worm`, `Promises*`, `Governance`,
  `Deeds`, `Leaks`, `Transactions`).
  Requests interleave as steps: read the bucket, write a blob, commit a transaction, clean up blobs,
  crash, restart, finish half-done bucket deletions. `Service` specifies each transaction as a function
  of the store, `Transactions.Txn` carries it out record by record as the source does, and `Protocol`
  composes the steps. Over every run: no record loses its data, no two records share a blob, a completed
  multipart object has the right size and the right full-object checksum, null pointers are exact, and
  locked versions stay. The `Promises*` modules say what each transaction means without its specification:
  exactly when it is granted, which records it adds, removes and changes, and what it hands back to be
  cleaned up. `Governance` and `Deeds` say the same of the steps of a run, and that retention in either mode
  is never undercut without a bypass; `Leaks` that a calm run leaves no blob behind.
* **CRC combination** (`Gf2` in `Crc.dfy`, `Checksum`): repeated squaring of GF(2) matrices in two
  alternating arrays computes the CRC of a concatenation.
* **Ordered index and listing** (`Kv`, `Keys`, `Listing`, `Paging`, `Entries`): key encoding, seeking
  over whole subtrees, one page against a declarative listing, and paging to the end. `Markers` says what
  common prefixes and markers mean in terms of keys.
* **Master key rotation** (`Kms` in `Master.dfy`, `Rewrap`): an interruptible, batched re-wrapping of
  records under a ring that grows and is pruned, for every record as the server seals it.
* **Lifecycle** (`Lifecycle`, `LifecycleMeaning`, `LifecycleScan`, `LifecycleRuns`, `LifecycleStore`): rule
  evaluation as a maximum, and as what selected, due clauses ask for, the paged scan against group-by-key, a termination measure over any number of passes, and the
  refinement of its delete actions by the delete step of the protocol.
* **Policy and identities** (`Glob`, `Iam`, `Authz`, `Grants`): the backtracking matcher, bidirectional group
  membership, who is granted what, and the narrowing of session policies.
* **Consistency check and repair** (`Fsck`, `FsckMeaning`, `FsckRepair`, `FsckStore`): the check reports exactly what
  is wrong, finds nothing exactly in sound directories, reachable states have nothing wrong but left-over files and half-deleted buckets, repair
  loses nothing and converges.
* **Reading** (`Reader`, `ReadBack`): range resolution and the reader over parts.

`dafny verify dfyconfig.toml` checks everything.

## Where the code does less than its promises

The model keeps the code as it is; each point has the exact condition under which the promise holds.

* The literal branch of the glob matcher comes before its star branch. A subject is decided exactly by
  every pattern if and only if it holds no `*` (`Glob.ExactIffStarFree`). Accepted subjects always match
  (`Glob.Sound`).
* Paging through a delimited object listing can lose entries after a returned plain key that ends in the
  delimiter, because the marker then stands for the whole subtree. Paging returns the full listing for
  every page size if and only if no listed key shadows a later entry in this way
  (`Paging.ObjectPagesExact`).
* `IsLatest` is right throughout a page of versions if and only if the page does not start in the middle
  of a key (`Entries.FlagsRightUnlessMidKey`).
* A range is resolved as section 14.1.2 of RFC 9110 says if and only if the object is not empty or the
  range is not a suffix: a suffix of an empty object is served as an empty body (`Reader.ResolvesAsRfc`).
* Policies see the principal type, so the first session of a chain may be allowed what its parent is not.
  A derived session may do only what its parent may if and only if the parent is itself a session, or a
  restriction of the session does not parse or has no Allow statement (`Authz.NarrowsExactly`, and
  `Authz.RootNarrowsExactly` for a session derived from root). From the first session on, sessions only
  narrow (`Authz.ChainsOnlyNarrow`).
* Completing an upload does not check the lock of a null version it replaces. Locked versions still stay,
  because a bucket with object lock always has versioning enabled (`Worm.LockImpliesVersioning`).

## Assumptions

* The key-value store is an ordered map with atomic, serialisable transactions; the blob store is a map.
* Sequences, upload IDs, blob IDs and creation times are drawn from one counter above everything handed
  out before, also across restarts.
* Object keys and prefixes are NUL-free and bucket names are free of `/`, as the request handlers ensure.
* An expectation (`internal/object/expect.go`) is recorded when a request is authorised, before the
  service reads the bucket; the object-lock results are about requests that carry one, as every request
  through the API does (`internal/s3api/auth.go:203`), and about runs without forced bucket deletion.
* A blob deletion that fails, which the source only logs, counts as a request that leaves while it owes the
  blob (`Leaks.Calm`).
* A cryptographic digest of a part is idealised as its message, and authenticated encryption opens a
  value with exactly the key and associated data that sealed it.

## Model

| member | source | states |
|---|---|---|
| Gf2.ZerosLinear | internal/checksum/checksum.go:167-200 | Clocking any number of zero bits through a reflected CRC register is linear over xor, which is what makes part CRCs combinable |
| Gf2.ZerosCompose | internal/checksum/checksum.go:167-200 | Clocking m and then n zero bits is clocking m + n |
| Gf2.ProductApplies | internal/checksum/checksum.go:223-232 | A matrix whose rows are the images of the unit words under n zero bits computes that operator on every word |
| Gf2.SquareDoubles | internal/checksum/checksum.go:234-238 | Squaring a matrix of n zero bits gives a matrix of 2n zero bits |
| Gf2.StepRows | internal/checksum/checksum.go:171-178 | The initial matrix of the combination, the polynomial and then the lower bits, is that of one zero bit |
| Checksum.MatrixTimes | internal/checksum/checksum.go:223-232 | The early-exit loop over the vector computes the matrix-vector product over GF(2) |
| Checksum.MatrixSquare | internal/checksum/checksum.go:234-238 | The target array holds the product of the matrix with each of its own rows |
| Checksum.FeedClocks | internal/checksum/checksum.go:202-221 | A table step is eight clocks of the register with the byte xored into its low bits |
| Checksum.RegisterAppend | internal/checksum/checksum.go:130-164 | The register over a concatenation is the register over the second part started from that over the first |
| Checksum.RegisterAffine | internal/checksum/checksum.go:167-200 | A change of the start value reaches the end only through the zero operator of the message length |
| Checksum.CrcAppend | internal/checksum/checksum.go:167-200 | The CRC of a + b is the zero operator of b's length on the CRC of a, xored with the CRC of b |
| Checksum.Combine | internal/checksum/checksum.go:167-200 | The loop over the bits of the length, in two alternating in-place matrices, applies the zero operator of exactly that many bytes and xors the second CRC; for a length of zero or less the first CRC comes back |
| Checksum.BigEndianRoundTrip | internal/checksum/checksum.go:130-164 | Reading back the big-endian bytes of a CRC gives the CRC, for 32 and 64 bits |
| Checksum.CombineAllIsCrc | internal/checksum/checksum.go:130-164 | Folding the combination over any list of parts, empty ones included, gives the CRC of their concatenation |
| Checksum.DescribedCrc | internal/checksum/checksum.go:130-164 | For sums and sizes that describe some parts, the combined digest bytes are the digest of the concatenated parts, for CRC-32, CRC-32C and CRC-64 |
| Checksum.IeeeGenerator | internal/checksum/checksum.go:30-40 | The generator of CRC-32 has exactly the terms of the IEEE polynomial |
| Checksum.CastagnoliGenerator | internal/checksum/checksum.go:30-40 | The generator of CRC-32C has exactly the terms of the Castagnoli polynomial |
| Checksum.NvmeGenerator | internal/checksum/checksum.go:30-40 | The generator of CRC-64 has exactly the terms of the NVME polynomial |
| Checksum.PresetAndComplemented | internal/checksum/checksum.go:57-71 | A CRC is the complement of the register started from all ones, and that of the empty message is zero |
| Checksum.HighestFirst | internal/checksum/checksum.go:130-164 | A digest is written highest byte first, byte by byte |
| Checksum.CombineCRC | internal/checksum/checksum.go:130-164 | The method returns that digest for every list of parts its input describes, and refuses other algorithms |
| Glob.Match | internal/policy/policy.go:332-355 | The backtracking loop terminates, accepts only what the wildcard relation holds for, and decides exactly when the subject has no `*` |
| Glob.Sound | internal/policy/policy.go:332-355 | Whatever is accepted stands in the declarative wildcard relation, for every pattern and subject |
| Glob.Complete | internal/policy/policy.go:332-355 | From any reachable cursor, on a star-free subject, the loop accepts exactly when what is left can still be matched |
| Glob.StarredSubjectMissed | internal/policy/policy.go:337-337 | On a subject with a star, the pattern built from the text before it is refused although it matches |
| Glob.ExactIffStarFree | internal/policy/policy.go:332-355 | All patterns are decided exactly on a subject if and only if the subject has no `*` |
| Kv.PrefixSuccessor | internal/kv/kv.go:47-57 | The backward increment loop computes the successor of a prefix, or none |
| Kv.SuccessorIsLeast | internal/kv/kv.go:47-57 | It is the least string above every string with the prefix; none exactly when there is no such string |
| Kv.BelowSuccessor | internal/kv/kv.go:47-57 | Below the successor lie exactly the strings below the prefix and those that have it |
| Kv.SeekSkipsPrefix | internal/kv/kv.go:47-57 | Seeking to the successor skips all keys with the prefix and no other |
| Keys.HexOrder | internal/meta/keys.go:65-67 | Fixed-width hexadecimal compares as the numbers do |
| Keys.SplitInvertsEncode | internal/meta/keys.go:70-91 | Splitting inverts encoding for every object key, even one that holds the separator |
| Keys.EncodeInvertsSplit | internal/meta/keys.go:70-91 | Encoding inverts splitting for every lower-case record key that splits |
| Keys.RecordOrder | internal/meta/keys.go:61-67 | Byte order on the record keys of a bucket is exactly key ascending, then sequence descending |
| Keys.ScanMeaning | internal/meta/keys.go:57-59 | A record lies under a scan prefix exactly when its object key has the prefix |
| Keys.VersionsMeaning | internal/meta/keys.go:52-54 | A record lies under the versions prefix of a key exactly when it is a version of that key |
| Listing.HasLiveKey | internal/meta/store.go:324-345 | Seeking from key to key decides whether some key with the prefix has a live latest version |
| Listing.List | internal/meta/store.go:221-320 | One page holds exactly the first MaxKeys entries of the declarative listing from the marker on, is truncated exactly when another entry follows, and returns the markers of its last entry |
| Paging.ResumeAdvances | internal/meta/store.go:221-320 | The marker of any entry resumes strictly later and inside the scan, so paging terminates |
| Paging.NextPageIsRest | internal/meta/store.go:353-358 | After an entry that does not stand for a subtree, the next page starts with the very next entry |
| Paging.VersionPagesComplete | internal/meta/store.go:221-320 | Paging through versions, with or without delimiter and for every page size, yields the full listing in order, each entry once (`IsLatest` aside) |
| Paging.ObjectPagesComplete | internal/meta/store.go:221-320 | Paging through objects yields exactly the full listing when no listed key shadows a later entry; without a delimiter none does |
| Paging.ObjectPagesExact | internal/meta/store.go:353-358 | Every page size yields the full object listing if and only if no listed key shadows a later entry |
| Paging.ListAll | internal/meta/store.go:221-320 | A client that follows the returned markers terminates and collects those pages |
| Entries.GetLatest | internal/meta/store.go:93-105 | The first record under the versions prefix is the latest version of that key |
| Entries.LatestIsNewest | internal/meta/store.go:93-105 | It has the highest sequence of all versions of the key |
| Entries.ObjectListed | internal/meta/store.go:221-320 | An object is listed exactly when it is the live latest version of a key with the prefix that does not collapse |
| Entries.PrefixListed | internal/meta/store.go:221-320 | A common prefix is listed exactly when some live key collapses to it |
| Entries.VersionListed | internal/meta/store.go:221-320 | A version is listed with its flag exactly when it is a record under the prefix that does not collapse, and the flag says whether it is the newest of its key |
| Entries.ObjectListingAscends | internal/meta/store.go:221-320 | Names in an object listing ascend strictly, so no entry repeats |
| Entries.VersionListingNewestFirst | internal/meta/store.go:221-320 | Versions are listed by key ascending, and newest first within a key |
| Entries.FlagsRightUnlessMidKey | internal/meta/store.go:256-256 | All `IsLatest` flags from a start position on are right if and only if it is not in the middle of a key |
| Markers.CollapseMeans | internal/meta/store.go:221-320 | A key collapses to the text up to and including the first delimiter after the prefix, and does not collapse when there is none |
| Markers.ObjectMarkerMeans | internal/meta/store.go:353-358 | A record under the prefix is listed from the marker on exactly when its key comes after the marker, and, when the marker ends in the delimiter, does not begin with it |
| Markers.VersionMarkerMeans | internal/meta/store.go:221-320 | After a key marker with a version ID come exactly later keys and older versions of that key, the null version located by its pointer; without an ID, later keys |
| Markers.IdHoldsSequence | internal/meta/keys.go:61-67 | A version ID begins with its sequence in hexadecimal, and one of another length has none |
| Records.NullVersionUnique | internal/meta/store.go:146-178 | The null pointer exists exactly when the key has a null version, and there is at most one |
| Records.GetVersionIsLookup | internal/meta/store.go:108-141 | Looking up an ID finds exactly the stored version with that ID, through the null pointer for the null version |
| Records.PutObjectEffect | internal/meta/store.go:146-168 | A write adds its version, removes exactly the null version it replaces, hands that one back, moves the pointer, and changes nothing else |
| Records.PutObjectKeeps | internal/meta/store.go:146-168 | Writing a version with a new sequence keeps pointers exact |
| Records.DeleteVersionKeeps | internal/meta/store.go:172-180 | Deleting a version keeps pointers exact |
| Records.RewriteKeeps | internal/object/tagging.go:15-50 | Rewriting a version in place keeps pointers exact |
| Transactions.CheckOrder | internal/object/multipart.go:280-360 | The order check accepts exactly lists with strictly ascending part numbers |
| Transactions.CollectParts | internal/object/multipart.go:280-360 | The loop reports the first bad entry, or collects the named stored parts in list order with their total size, sums and sizes |
| Transactions.CombineSums | internal/object/multipart.go:280-360 | The object checksum is composite or combined as the upload asks, and absent when it cannot be combined |
| Transactions.Build | internal/object/multipart.go:280-360 | `assemble` refuses, or builds the version record, as specified for every list and stored parts |
| Transactions.FindUnused | internal/object/multipart.go:280-360 | The unused parts are those whose blob the object does not name |
| Transactions.Txn.GetLatest | internal/meta/store.go:93-105 | The newest version record of the key, if any |
| Transactions.Txn.GetVersion | internal/meta/store.go:108-141 | The version with the ID, looked up as specified |
| Transactions.Txn.PutObject | internal/meta/store.go:146-168 | The record-by-record write gives the specified store and returns the replaced null version |
| Transactions.Txn.DeleteVersion | internal/meta/store.go:172-180 | The record and, with the null version, its pointer go |
| Transactions.Txn.PutPart | internal/meta/store.go:475-485 | The part record is set, and the one before it returned |
| Transactions.Txn.ListParts | internal/meta/store.go:488-508 | All part records of the upload |
| Transactions.Txn.DeleteUpload | internal/meta/store.go:392-406 | The upload and all its part records go, and the parts are returned |
| Transactions.Txn.CheckWriteConditions | internal/object/service.go:474-492 | If-Match and If-None-Match are decided on the latest version; no error exactly when the current version has a tag the one lists and none the other lists |
| Transactions.Txn.Put | internal/object/put.go:381-477 | The transaction commits the specified store or changes nothing and returns the specified error. It succeeds exactly when `PutGranted` holds, and then its version stands and only a null version it replaces is gone |
| Transactions.Txn.StorePart | internal/object/multipart.go:122-204 | Specified likewise; it succeeds exactly when the upload is open |
| Transactions.Txn.Complete | internal/object/multipart.go:207-274 | Specified likewise; it succeeds exactly when `CompleteGranted` holds, and then the object of the listed parts stands and the upload is closed |
| Transactions.Txn.Abort | internal/object/multipart.go:363-385 | Specified likewise; it succeeds exactly when the upload is open in the expected bucket, and then the upload and exactly its parts are gone |
| Transactions.Txn.Delete | internal/object/delete.go:36-155 | Specified likewise, by ID or not, in an enabled, suspended or unversioned bucket; granted exactly as `DeleteOneGranted` and `DeleteCurrentGranted` say, and what is gone is handed back |
| Transactions.Txn.DeleteOne | internal/object/delete.go:53-102 | The part that deletes one version by ID, as specified |
| Transactions.Txn.DeleteNewest | internal/object/delete.go:103-144 | The part that deletes the current version or adds a delete marker, as specified |
| Transactions.Txn.Find | internal/object/tagging.go:15-50 | The checks before a version is rewritten find that version or fail as specified |
| Transactions.Txn.Retain | internal/object/tagging.go:93-122 | Specified likewise; granted exactly when the addressed version may be updated and active retention is not undercut without a bypass of governance, and then that version has the new retention and nothing else changed |
| Transactions.Txn.Hold | internal/object/tagging.go:125-134 | Specified likewise; granted exactly when the addressed version may be updated, and then its hold is as asked |
| Transactions.Txn.DropUploads | internal/object/service.go:280-318 | Exactly the uploads of the bucket go |
| Transactions.Txn.DropParts | internal/object/service.go:280-318 | Exactly the part records of the bucket go |
| Transactions.Txn.EmptyBucket | internal/object/service.go:280-318 | The first transaction of a bucket deletion succeeds exactly when the expected bucket holds no version; it hides the bucket and drops its uploads and parts, or changes nothing |
| Transactions.Txn.Finish | internal/object/service.go:322-338 | The last one removes the bucket record if it is still deleting |
| Promises.ConditionsMean | internal/object/service.go:474-492 | A write passes its conditions exactly when If-Match lists the tag of the current version and If-None-Match does not; a delete marker is no current version |
| Promises.WriteMeans | internal/meta/store.go:146-168 | A written version stands under its sequence with the ID its bucket asks for, is found by that ID, is the latest when its sequence is highest, and only the null version it takes the place of is gone and handed back |
| Promises.PutMeans | internal/object/put.go:381-477 | A put is granted exactly when the bucket is the one seen and expected, the conditions hold and no locked null version would go; then that version stands, and nothing else changed |
| PromisesDelete.DeleteOneMeans | internal/object/delete.go:53-102 | Deleting by ID is granted exactly when the conditions hold and the version is under no hold, no active compliance retention and no active governance retention without bypass; then exactly the version with that ID is gone and handed back |
| PromisesDelete.DeleteCurrentMeans | internal/object/delete.go:79-144 | Without an ID a marker is put on top (of all versions when enabled, in place of the null version when suspended) or the newest version goes (unversioned), exactly when what would go is not locked and the conditions hold; what is gone is handed back |
| PromisesDelete.LookupMeans | internal/meta/store.go:108-141 | Looking up an ID finds the one stored version that carries it, if any |
| PromisesDelete.FindMeans | internal/object/tagging.go:15-50 | The checks before an update find exactly the version the request addresses: expected, and no delete marker |
| PromisesDelete.RetainMeans | internal/object/tagging.go:93-122 | New retention is granted exactly when active retention is kept or extended in its mode, or is governance and bypassed; then the addressed version has it and nothing else changed |
| PromisesDelete.HoldMeans | internal/object/tagging.go:125-134 | A legal hold is granted exactly when the addressed version may be updated; then it is as asked and nothing else changed |
| PromisesDelete.AttrsMean | internal/object/put.go:316-357 | Lock attributes are accepted exactly in a bucket under object lock and with a future date; what was asked is kept, and without retention the default of the bucket applies |
| PromisesMultipart.UploadMeans | internal/object/multipart.go:29-88 | An upload starts exactly in the live, expected bucket, and only its record is added |
| PromisesMultipart.PartMeans | internal/object/multipart.go:122-204 | A part is recorded exactly when its upload is open, in place of the part with its number, which is handed back |
| PromisesMultipart.AbortMeans | internal/object/multipart.go:363-385 | Aborting is granted exactly when the upload is open; it and exactly its own parts go, and those parts are handed back |
| PromisesMultipart.AssembleMeans | internal/object/multipart.go:280-360 | An object is built exactly from a list with ascending part numbers whose entries all have a stored part with a listed tag, the minimum size except the last, and the claimed checksum, with totals in bounds and as claimed; it names those parts in that order |
| PromisesMultipart.CompleteMeans | internal/object/multipart.go:207-274 | Completing is granted exactly when bucket, upload, every entry of the list, totals and conditions are right; then the object of the listed parts stands, the upload is closed, and exactly the unused parts and the replaced version are handed back |
| PromisesBuckets.CreateMeans | internal/object/service.go:144-183 | A bucket is created exactly when the name is free, versioned from the start when locked |
| PromisesBuckets.DeleteMeans | internal/object/service.go:280-318 | A bucket is deleted exactly when it is live, expected and holds no version; its uploads and parts go and no other record changes |
| PromisesBuckets.ForceMeans | internal/object/service.go:365-394 | With force its versions go too, and no record of another bucket changes |
| PromisesBuckets.FinishMeans | internal/object/service.go:322-338 | At the end its record goes if it is still being deleted |
| PromisesBuckets.VersioningMeans | internal/s3api/bucket.go:350-356 | Versioning is set exactly in the live, expected bucket, and never suspended under object lock |
| PromisesBuckets.LockMeans | internal/s3api/bucket.go:737-747 | Object lock is configured exactly where it is on or versioning is enabled, and never turned off |
| Governance.PutDoes | internal/object/put.go:381-477 | In every state that satisfies the invariant the last step of a put stores its version exactly when it is granted, and otherwise changes no record |
| Governance.CompleteDoes | internal/object/multipart.go:207-274 | So does the last step of a completed upload |
| Governance.DeleteDoes | internal/object/delete.go:36-155 | So does a delete, by ID or not |
| Governance.RetentionDoes | internal/object/tagging.go:93-122 | So does the last step of a change of retention |
| Governance.HoldDoes | internal/object/tagging.go:125-134 | So does the last step of a change of the legal hold |
| Governance.AttrsTravel | internal/object/put.go:381-477 | What a client asks of a put, and the default retention of the bucket, reaches the version its last step records, with the bytes stored in a blob of its own |
| Governance.UploadAttrsTravel | internal/object/multipart.go:29-88 | Likewise for the lock attributes of a multipart upload |
| Governance.RequestsTravel | internal/object/tagging.go:93-134 | What a client asks of retention, with or without bypass, and of legal hold is what its last step acts on |
| Governance.PartsTravel | internal/object/multipart.go:122-274 | A part upload and a completion act on the open upload as it is stored |
| Governance.StepUpholds | internal/object/service.go:419-432 | A version under active retention of either mode stays with its data and at least its retention through every step, unless that very step addresses it with a bypass and its mode is governance; only a delete removes it |
| Governance.RetentionHolds | internal/object/service.go:419-432 | Over any stretch of a run without forced bucket deletion, retention active at its end was upheld throughout, in governance mode as long as no step addressed the version with a bypass |
| Deeds.UploadStarts | internal/object/multipart.go:29-88 | An upload starts under a new number, exactly in the expected bucket |
| Deeds.PartIsWritten | internal/object/multipart.go:122-204 | A part is written to a blob of its own and carries the digest its upload asks for |
| Deeds.PartIsRecorded | internal/object/multipart.go:122-204 | It is recorded exactly when the upload is still open |
| Deeds.AbortDoes | internal/object/multipart.go:363-385 | Aborting closes the upload exactly when it is open, and touches no version |
| Deeds.BucketCreated | internal/object/service.go:144-183 | Creating a bucket adds it with a new creation number exactly when the name is free |
| Deeds.VersioningSet | internal/s3api/bucket.go:350-356 | Setting the versioning changes only that, exactly when allowed |
| Deeds.LockSet | internal/s3api/bucket.go:737-747 | Configuring object lock changes only that, exactly when allowed |
| Deeds.BucketDeleted | internal/object/service.go:280-318 | Deleting a bucket hides exactly an expected one without versions, and goes on to its data |
| Deeds.DeletionFinishes | internal/object/service.go:322-338 | The data directory goes first, exactly the blobs of that bucket, and then the record |
| Leaks.PutSettles | internal/object/put.go:381-477 | At the end of a put its blob and that of the version it replaced are named by a record or left to it to delete |
| Leaks.CompleteSettles | internal/object/multipart.go:207-274 | So are the parts of a completed upload, used or not, and the version it replaced |
| Leaks.DeleteSettles | internal/object/delete.go:36-155 | So are the blobs of a deleted version |
| Leaks.StepTidy | internal/object/service.go:398-406 | No step but a crash, or a request that leaves in the middle, lets a blob go that is neither named by a record nor owed by a request |
| Leaks.NothingLeaks | internal/object/service.go:398-406 | Hence in every state of a run without these each blob on disk is named by a record, or owed by a request in flight that will record or delete it |
| Leaks.DiskIsExact | internal/object/service.go:398-406 | Once no request is in flight the blobs on disk are exactly those that records name |
| SafetyPut.AssembleTakes | internal/object/multipart.go:280-360 | A built object names exactly the stored parts of the list, ascending, with their total size and combined checksum |
| SafetyPut.TakenNew | internal/object/multipart.go:207-274 | After the upload is gone, the blobs of the taken parts exist, differ from one another, and are named by no other record |
| SafetyPut.TakenSum | internal/object/multipart.go:280-360 | A full-object checksum of the taken parts is the CRC of the body they make, even when parts were uploaded again meanwhile |
| SafetyPut.WhenComplete | internal/object/multipart.go:207-274 | A committed completion happened in the bucket incarnation it read, and wrote exactly the version built from the taken parts |
| SafetyKv.PutKeeps | internal/meta/store.go:146-168 | Writing a version whose blobs exist and are new keeps every record provided with its own, unshared data |
| SafetyKv.DeleteKeeps | internal/meta/store.go:172-180 | Deleting a version keeps that too, and names no new blob |
| SafetyKv.PartKeeps | internal/meta/store.go:475-485 | Recording a new part keeps it, and un-names the blob of the part it replaces |
| SafetyKv.UploadGone | internal/meta/store.go:392-406 | Deleting an upload keeps it, and names no new blob |
| Safety.Undisturbed | internal/object/put.go:381-477 | A request in flight that shares nothing with a step still has its blob, sequence and bucket incarnation after it |
| Safety.Moves | internal/object/put.go:381-477 | A step that keeps the store sound and touches only what its request owns keeps the whole invariant |
| SafetyRuns.StepKeeps | internal/object/service.go:280-362 | Every step of every request, every crash and every recovery keeps the invariant |
| SafetyRuns.RunInv | internal/object/service.go:280-362 | The invariant holds in every state of every run |
| SafetyRuns.NoRecordLosesData | internal/object/put.go:381-477 | In every reachable state every blob named by an object or part record exists with the recorded length, and no other place names it |
| SafetyRuns.EveryBodyIsRight | internal/object/multipart.go:280-360 | In every reachable state each version, put or multipart, records the size of its body, the concatenation of its parts, and a full-object checksum is the digest of that body |
| SafetyRuns.NullPointersExact | internal/meta/store.go:146-178 | In every reachable state the null pointer of a key exists exactly when it has a null version, which is unique |
| SafetyRuns.BytesNeverChange | internal/object/put.go:198-250 | While a blob exists its bytes never change, and once gone it never comes back |
| SafetyRuns.BodyNeverChanges | internal/object/get.go:142-207 | A version with the same parts reads the same at any two times of a run |
| Worm.StepGuards | internal/object/service.go:419-432 | Every step upholds every version under compliance retention or legal hold, and keeps the lock invariant |
| Worm.LockRun | internal/s3api/bucket.go:737-747 | The lock invariant holds in every state of a run without forced bucket deletion |
| Worm.LockImpliesVersioning | internal/s3api/bucket.go:350-356 | In each of them a bucket with object lock has versioning enabled |
| Worm.WriteSurvives | internal/meta/store.go:146-168 | A write replaces no locked version |
| Worm.DeletesCurrentLocked | internal/object/delete.go:103-144 | Deleting the current version removes no locked version |
| Worm.HeldVersionStays | internal/object/tagging.go:125-134 | A version under legal hold survives any step with the same data, and stays held unless that step released it |
| Worm.HeldUntilReleased | internal/object/tagging.go:125-134 | Over any stretch of a run in which its hold is not released, the version stays stored, held and with the same data |
| Worm.RetainedVersionStays | internal/object/tagging.go:93-122 | A version under compliance retention until T stays stored with the same data at all times before T, and its retain-until never decreases |
| Reader.ResolvesAsRfc | internal/object/get.go:112-128 | The served bytes are exactly those section 14.1.2 of RFC 9110 selects, refused when it selects none, if and only if the object is not empty or the range is not a suffix |
| Reader.PartRangeIsPart | internal/object/get.go:99-111 | What is served for a part number is exactly that part of the body, and a number past the last is refused |
| Reader.AllBytesAt | internal/object/get.go:188-207 | Part i starts at the sum of the sizes before it |
| Reader.AllBytesIsBody | internal/object/get.go:142-207 | When no blob is missing, the bytes the reader strings together are the body of the version |
| Reader.Stream.Read | internal/object/get.go:153-186 | A stream may read short, and reports its end at once or later, but only when all is delivered |
| Reader.PartsReader.OpenNext | internal/object/get.go:188-207 | The part that holds the current offset is opened at the right place, zero-length parts skipped; it fails only on a missing blob |
| Reader.PartsReader.Take | internal/object/get.go:153-186 | What is taken from the open part is the next stretch of the object |
| Reader.PartsReader.Read | internal/object/get.go:153-186 | Each call delivers the next stretch of the object for any buffer size and any short reads, makes progress, and reports the end exactly when nothing remains |
| Reader.Drain | internal/object/get.go:153-186 | A caller that reads to the end gets exactly bytes [offset, offset + length), or a prefix of them when a blob is missing |
| ReadBack.VersionReadable | internal/object/get.go:142-207 | In every reachable state every stored version can be read to the end, as its body |
| Kms.Master.AddKey | internal/kms/master.go:159-180 | A new key with a new ID comes first, or the ring is as before when it cannot be saved |
| Kms.Master.Prune | internal/kms/master.go:185-203 | Only the current key stays and the others are returned, or the ring is as before |
| Kms.Master.WithFallback | internal/kms/master.go:240-248 | The keys of the other rings follow, in order |
| Kms.Master.UnwrapIndex | internal/kms/master.go:263-270 | The first key that opens the value, and the plaintext |
| Kms.MoreKeys | internal/kms/master.go:263-270 | A ring that holds all keys of another opens what that opens, to the same plaintext |
| Kms.FirstKeySuffices | internal/kms/master.go:185-203 | What the first key opens stays open after the ring is pruned |
| Rewrap.CodecDecodes | internal/masterkey/rewrap.go:238-298 | For the check value, a named key, an access-key secret, an object version and an upload, each stored where the server stores it, the codec of its class yields its sealed value and the associated data the server sealed it with |
| Rewrap.UnsealsReads | internal/object/put.go:127-195 | What the ring unseals, as the server seals it, is what the ring reads in the class of the record, under the key that sealed it |
| Rewrap.StillUnseals | internal/masterkey/rewrap.go:118-148 | What stays readable class by class stays unsealed record by record |
| Rewrap.NoneStaleMeans | internal/masterkey/rewrap.go:43-49 | When no class has a stale record, every record of the server that the ring unseals is sealed under the current key |
| Rewrap.OneSpace | internal/masterkey/rewrap.go:238-298 | No record is protected in two classes, so no class re-wraps another's record |
| Rewrap.RewrapRecord | internal/masterkey/rewrap.go:238-298 | Re-wrapping a record puts it under the current key, leaves the rest of it alone and changes no plaintext in any class |
| Rewrap.Kind.Note | internal/masterkey/rewrap.go:154-236 | Counting a record keeps each count equal to the number of records under that key |
| Rewrap.Kind.Move | internal/masterkey/rewrap.go:154-236 | Moving a record to the current key keeps it too |
| Rewrap.Kind.Stale | internal/masterkey/rewrap.go:43-49 | The sum of the counts of the older keys |
| Rewrap.StaleMeans | internal/masterkey/rewrap.go:43-49 | When the counts cover the class, none is counted stale if and only if no record is stale |
| Rewrap.Runner.Scan | internal/masterkey/rewrap.go:154-236 | A read transaction counts its batch and lists exactly its stale records |
| Rewrap.Runner.Rewrite | internal/masterkey/rewrap.go:154-236 | A write transaction leaves none of the listed records under an older key, re-reading each first, and makes no record worse |
| Rewrap.Runner.Batch | internal/masterkey/rewrap.go:154-236 | A batch keeps the counts exact and leaves nothing stale behind it, or is interrupted with no record worse |
| Rewrap.Runner.Walk | internal/masterkey/rewrap.go:154-236 | Whenever it ends, total = sum by key + unreadable and every plaintext is kept; when done, a non-dry walk leaves no stale record of the class |
| Rewrap.Runner.Run | internal/masterkey/rewrap.go:118-148 | The same over all classes: interrupted or not every plaintext is kept and totals add up; a completed non-dry one leaves no stale record; a dry one changes nothing |
| Rewrap.ReportStale | internal/masterkey/rewrap.go:65-71 | The report counts nothing stale exactly when every class does |
| Rewrap.FirstKeyStill | cmd/opens3/master.go:316-364 | With no stale record, the current key alone reads all that the ring reads |
| Rewrap.Admin.DoRotate | cmd/opens3/master.go:233-290 | Rotation, complete or interrupted, keeps every record of the server, as sealed, unsealed to the same plaintext; complete, it leaves each under the current key |
| Rewrap.Admin.DoRewrap | cmd/opens3/master.go:292-314 | The same for a re-wrap |
| Rewrap.Admin.DoRetire | cmd/opens3/master.go:316-364 | Retiring, guarded by zero stale records, removes the old keys; the one that remains unseals every record of the server that the ring did, to the same plaintext |
| Rewrap.Admin.Session | cmd/opens3/master.go:233-364 | Over any sequence of rotations, partial re-wraps and retirements every record of the server that the ring unsealed stays unsealed to the same plaintext |
| Lifecycle.FirstMidnight | internal/lifecycle/eval.go:91-98 | An expiry is the first midnight not before the given number of days after the time |
| Lifecycle.ColdestIs | internal/lifecycle/eval.go:194-213 | The chosen transition is the coldest due class that is colder than the present one |
| Lifecycle.PickColdest | internal/lifecycle/eval.go:194-213 | The loop over transitions finds it |
| Lifecycle.EvalCurrent | internal/lifecycle/eval.go:194-213 | The verdict of a rule on a live current version |
| Lifecycle.EvalNoncurrent | internal/lifecycle/eval.go:242-261 | The verdict of a rule on a noncurrent version |
| Lifecycle.EvalRules | internal/lifecycle/eval.go:167-192 | The loop over rules returns the winner |
| Lifecycle.EvalIsMaximum | internal/lifecycle/eval.go:167-192 | No rule's verdict beats the chosen action, it is the first rule as strong, and nothing is chosen exactly when every rule says nothing |
| Lifecycle.EvalFits | internal/lifecycle/eval.go:167-192 | The action fits the version: markers are only removed alone, transitions only go colder, noncurrent actions only meet noncurrent versions |
| LifecycleMeaning.DaysMean | internal/lifecycle/eval.go:91-98 | Days are over exactly when a midnight has passed that is not before that many days after the time |
| LifecycleMeaning.SelectsMeans | internal/lifecycle/eval.go:110-153 | A rule matches exactly the versions whose key begins with its prefix (top level, filter or conjunction), that have its tags and whose size is within its bounds |
| LifecycleMeaning.ClausesMean | internal/lifecycle/eval.go:194-261 | Expiry, marker and noncurrent clauses are due as their days, dates and required newer versions say |
| LifecycleMeaning.TiersGetColder | internal/lifecycle/eval.go:80-87 | The classes have their order from warm to cold, and all others count as warmest |
| LifecycleMeaning.EvalMeans | internal/lifecycle/eval.go:167-192 | Every action comes from an enabled rule that selects the version and has a due clause asking for it; conversely what such a clause asks for is done, unless an action that goes before it is, or a colder move |
| LifecycleMeaning.InputMeans | internal/lifecycle/worker.go:263-277 | A version is current when none is newer; a noncurrent one counts from the time the next newer one was written, behind the newer noncurrent ones |
| LifecycleMeaning.ScanMeans | internal/lifecycle/worker.go:191-277 | The scan answers exactly the versions of the bucket that rules ask something for, each seen with all versions of its key |
| LifecycleMeaning.ScanIsOnce | internal/lifecycle/worker.go:191-277 | No version is answered twice |
| LifecycleScan.GroupIsComplete | internal/lifecycle/worker.go:221-260 | A group holds exactly the versions of its key and ends where the successor of the key seeks to |
| LifecycleScan.GroupIsAllVersions | internal/lifecycle/worker.go:221-260 | The group is the list of all versions of the key |
| LifecycleScan.NewestFirst | internal/lifecycle/worker.go:263-277 | Within a group versions stand newest first |
| LifecycleScan.EvaluateGroup | internal/lifecycle/worker.go:263-277 | The loop evaluates each version of a group with the time it was replaced and the number of newer noncurrent versions |
| LifecycleScan.Collect | internal/lifecycle/worker.go:221-260 | A batch is the unpaged evaluation up to a group boundary strictly later, and nothing is evaluated twice or left out, for every batch size and scan limit |
| LifecycleScan.Process | internal/lifecycle/worker.go:191-216 | The paged scan terminates and equals the unpaged group-by-key evaluation |
| LifecycleRuns.DecidedIsSound | internal/lifecycle/worker.go:263-277 | What is decided for a key is a sound action at that moment |
| LifecycleRuns.StaysSound | internal/lifecycle/worker.go:280-332 | Pending actions stay sound while others are applied |
| LifecycleRuns.ApplyLightens | internal/lifecycle/worker.go:280-332 | An action that takes effect strictly decreases versions + 2 * live keys + remaining class ranks of the bucket |
| LifecycleRuns.TransitionTakes | internal/lifecycle/worker.go:314-327 | A transition that still applies moves exactly its version to the colder class |
| LifecycleRuns.ApplyNeverRevives | internal/lifecycle/worker.go:280-332 | No action makes a deleted key live |
| LifecycleRuns.ActionsAreBounded | internal/lifecycle/worker.go:191-332 | Over any number of passes at any clock values the effective actions are bounded by the initial measure |
| LifecycleRuns.DeletedStaysDeleted | internal/lifecycle/worker.go:280-332 | A key whose latest version is a delete marker never becomes live again |
| LifecycleStore.LatestIsFirst | internal/meta/store.go:93-105 | The latest record of a key is the first entry of the list that shows its records newest first |
| LifecycleStore.NullIsShown | internal/meta/store.go:108-141 | The null pointer leads to the one entry of the list that is marked as the null version |
| LifecycleStore.CurrentRefines | internal/object/delete.go:103-144 | Deleting the current version, in an enabled, suspended or unversioned bucket, does to the records of the key what the lifecycle model does to its list |
| LifecycleStore.VersionRefines | internal/object/delete.go:53-76 | So does deleting one version by its ID |
| LifecycleStore.ActionRefines | internal/lifecycle/worker.go:280-310 | The list after a delete action shows exactly the records after the delete transaction, a refusal being one of the transaction's |
| LifecycleStore.StepRefines | internal/lifecycle/worker.go:280-310 | The same for the delete step of the protocol in every state that satisfies its invariant |
| LifecycleStore.OtherKeysStay | internal/object/delete.go:36-155 | The records of every other key stay as they are |
| Iam.Remove | internal/iam/store.go:482-490 | In-place compaction leaves exactly the other names, in order |
| Iam.Store.CreateUser | internal/iam/store.go:363-396 | A user is created exactly when the name is neither root nor taken and its policies exist; it starts with no groups. Otherwise nothing changes, and the error says why |
| Iam.Store.UpdateUser | internal/iam/store.go:428-444 | The update succeeds exactly when the user and the policies exist; status and policies change, memberships do not |
| Iam.Store.DeleteUser | internal/iam/store.go:447-480 | An existing user goes and with it every membership; all else stays |
| Iam.Store.CreateGroup | internal/iam/store.go:770-797 | A group is created exactly when the name is free and its members and policies exist; exactly the members gain it |
| Iam.Store.UpdateGroup | internal/iam/store.go:838-882 | The update succeeds exactly when group, members and policies exist; new members gain the group, dropped ones lose it, others stay as they were |
| Iam.Store.DeleteGroup | internal/iam/store.go:885-901 | An existing group goes, from every user |
| Iam.Store.PutPolicy | internal/iam/store.go:906-928 | A policy is set exactly when it is not built in |
| Iam.Store.DeletePolicy | internal/iam/store.go:960-995 | A policy goes exactly when it exists and is not built in, and is detached from every user and group |
| Iam.Store.EnsureRoot | internal/iam/store.go:690-740 | Before a root session is derived the root user exists |
| Iam.Store.EffectivePolicies | internal/iam/store.go:227-266 | Each policy of the user and of its enabled groups, exactly once |
| Iam.Store.Run | internal/iam/store.go:363-995 | Every sequence of operations keeps user u in group g's members iff g is in u's groups, and every attached policy existing |
| Iam.GroupJoined | internal/iam/store.go:838-882 | Giving exactly the members the back-reference keeps memberships mutual |
| Iam.LeavesAll | internal/iam/store.go:447-480 | By mutuality, leaving the groups a user lists is leaving all groups |
| Iam.LosesAll | internal/iam/store.go:885-901 | By mutuality, taking a group from its members is taking it from all users |
| Authz.EvaluateDocument | internal/policy/policy.go:263-276 | The loop decides: any matching deny, otherwise any matching allow, otherwise no match |
| Authz.EvaluateIsDecision | internal/policy/policy.go:263-276 | The decision does not depend on the order of the statements |
| Authz.SamePolicies | internal/iam/authz.go:66-166 | Identity policies count as a set |
| Grants.CallerLaw | internal/iam/authz.go:66-166 | A caller is permitted exactly when no applicable Deny of a bucket or identity policy matches, every restriction allows and does not deny, and an identity Allow covers the request or, unless it is administrative, a bucket policy Allow, an ACL grant or ownership does |
| Grants.AnonymousLaw | internal/iam/authz.go:66-166 | An anonymous client is permitted exactly when no applicable Deny matches and a bucket policy Allow or an ACL grant covers the request |
| Grants.RootLaw | internal/iam/authz.go:66-166 | Root is permitted exactly when no applicable Deny matches, or when it manages a policy without locking itself out |
| Grants.CoverMeans | internal/iam/authz.go:169-234 | ACLs cover a request exactly when the caller owns the resource or, unless ownership is enforced, a grant of that permission or of full control reaches it |
| Grants.ArgsTell | internal/iam/authz.go:66-100 | Policies see the request and the principal as they are, and conditions fall back to the values of the principal |
| Authz.DecideRequest | internal/iam/authz.go:66-166 | The loops over policies and restrictions compute the decision |
| Authz.DeriveNarrows | internal/iam/store.go:690-740 | A derived session has exactly its parent's restrictions and the policy it was given |
| Authz.DerivedMayExactly | internal/iam/authz.go:66-166 | A session derived from a session may do exactly what its parent may and its own policy allows |
| Authz.ChainsOnlyNarrow | internal/iam/authz.go:66-166 | Along any chain of sessions restrictions only grow, and what a later one may do every earlier one may |
| Authz.NarrowsExactly | internal/iam/store.go:690-740 | A derived session may do only what its parent may, for all requests and policies, if and only if the parent is a session or one of the restrictions can grant nothing |
| Authz.RootNarrowsExactly | internal/iam/store.go:690-740 | A session derived from root may do only what root may if and only if its policy can grant nothing |
| Authz.GrantlessRefuses | internal/iam/authz.go:66-166 | A session with a restriction that does not parse or has no Allow statement may do nothing |
| Authz.FirstSessionMayDiffer | internal/iam/types.go:154-165 | For every other first session there is a request, under a bucket policy that conditions on the principal type, which the session may make and its parent may not |
| Fsck.Checker.CheckNulls | internal/fsck/fsck.go:307-382 | Adds exactly the dangling and missing null pointers of a bucket |
| Fsck.Checker.CheckVersions | internal/fsck/fsck.go:307-382 | Adds exactly the missing and mis-sized files of its versions, and references exactly the files they name |
| Fsck.Checker.CheckIndex | internal/fsck/fsck.go:442-505 | Adds exactly the dangling and missing upload index entries |
| Fsck.Checker.CheckPartRecords | internal/fsck/fsck.go:442-505 | Adds exactly the orphan parts and the parts without a file, and references exactly the part files |
| Fsck.Checker.CheckFiles | internal/fsck/fsck.go:507-528 | Adds exactly the files nothing references |
| Fsck.Checker.CheckStray | internal/fsck/fsck.go:531-561 | Adds exactly the files of unknown buckets and the temporary files |
| Fsck.Checker.CheckBucket | internal/fsck/fsck.go:211-270 | Adds exactly the problems of one bucket |
| Fsck.Checker.KnownBuckets | internal/fsck/fsck.go:274-305 | The buckets with a record and those that records name |
| Fsck.Checker.Run | internal/fsck/fsck.go:211-270 | The whole check reports a problem if and only if the directory has it |
| FsckMeaning.CleanMeansSound | internal/fsck/fsck.go:211-561 | The check finds nothing if and only if every named file is there with its length, buckets have records, null pointers and upload index are exact, parts belong to uploads and have files, and no other file is left |
| FsckMeaning.NamesMean | internal/fsck/fsck.go:307-382 | A version names exactly the files of its parts, unless it is a delete marker |
| FsckRepair.DeletionEnds | internal/fsck/repair.go:230-265 | A bucket left in deletion comes back if it still holds versions; otherwise its record and exactly its files go |
| FsckRepair.Repairer.FindNull | internal/fsck/repair.go:34-126 | The newest null version of a key, if there is one |
| FsckRepair.Repairer.RemoveParts | internal/fsck/repair.go:183-224 | The part records of an orphan upload go, and then their files |
| FsckRepair.Repairer.Act | internal/fsck/repair.go:34-126 | One repair has its specified effect, or fails and changes nothing |
| FsckRepair.Repairer.Repair | internal/fsck/repair.go:34-126 | Problems are repaired in order, up to the first failure |
| FsckRepair.RepairLosesNothing | internal/fsck/repair.go:34-265 | On an unshared directory, repairing a fresh report never touches object versions and removes no file one of them names, at any point |
| FsckRepair.RepairGoesThrough | internal/fsck/repair.go:34-126 | No repair of a fresh report fails |
| FsckRepair.ShapeStep | internal/fsck/repair.go:34-126 | Each repair adds exactly its own effect, whatever was repaired before |
| FsckRepair.ShapeIsClean | internal/fsck/repair.go:34-126 | When all problems found are repaired, none of them is found again but lost or mis-sized object files |
| FsckRepair.RepairConverges | internal/fsck/repair.go:34-265 | After repairing a fresh report a second check finds only lost or mis-sized object files |
| FsckStore.NothingWrong | internal/fsck/fsck.go:307-528 | A state that satisfies the protocol invariant shows only orphan files and buckets in deletion |
| FsckStore.CheckAgreesWithStore | internal/fsck/fsck.go:211-270 | So does every reachable state of the store |
| FsckStore.OrphansAreUnnamed | internal/fsck/fsck.go:507-528 | There the orphan files are exactly the blobs that no record names |
| FsckStore.ReachableIsOrderly | internal/fsck/repair.go:34-265 | Every reachable state meets the conditions under which repair loses nothing, and converges once no bucket is in deletion |

## Left out

- HTTP, XML and JSON handling, routing, the console, the admin client and the command line around the modelled operations.
- The file system, bbolt, fsync and rename: transactions are atomic and durable by assumption.
- Hash functions, signatures and ciphers: MD5, SHA and AES-GCM are ideal. Encryption of object data is not modelled.
- ACLs (but for `aclAllows`), tags, notifications, CORS, object metadata and storage class in the protocol: they change no record that the invariants speak of.
- The comparison of a client's own checksum with the computed one: it only refuses requests. The computed one is recorded.
- The expectation check of a part upload: it only refuses more requests than the model does.
- `ListUploads`: with a delimiter its marker does not skip a subtree; without one it is the simple scan.
- Index records that do not decode, and record keys with upper-case hexadecimal in listings: the store writes none.
- The branches for a prefix without successor: scan prefixes always have one, and `Kv.SuccessorIsLeast` says so of prefixes in general.
- The upload index is part of the upload record in the protocol and a record of its own in the consistency check.
- Wall-clock sequences: `Sequencer.Next` is a counter above all it handed out, also across restarts. Commit order need not be sequence order, and nothing here says so.
- Forced bucket deletion (`internal/object/service.go:365-394`) is specified and part of every run of the safety results; it has no method of its own.
- Text of policy statements: how a statement matches a request is a parameter of `Authz`, so conditions on dates, addresses and numbers are not modelled. `Glob.Match` stands alone.
- Iam.Store.CreateUser: names are well formed and no access key bears the name, because access keys and passwords are not modelled; the source refuses those too.
- Iam.Store.CreateGroup: the group name is well formed; the source refuses others.
- Iam.Store.PutPolicy: name and document are well formed, because the text of policies is not modelled; the source refuses others.
- Access keys, passwords and their expiry; `Resolve` only as the identity a session key stands for.
- The environment-variable mode of the master key commands, and their precondition that a check value exists.
- Lifecycle: aborting uploads, parsing and validating the configuration. Transitions change the storage class, which the protocol does not have, so `LifecycleStore` relates the delete actions only. In `LifecycleRuns` a refusal is a free choice; `LifecycleStore` ties it to the transaction's.
- Consistency check: content verification, undecodable records, files off the canonical shard path, and the single-bucket option. The report is a set; its order does not matter to repair.
- FsckMeaning.CleanMeansSound: null pointers, index entries and part records in a bucket without a record, object or upload are outside its soundness, because the check does not look there.
- FsckRepair.Repairer.Act: which of several uploads with one ID gets the index entry is left open, because the source takes the first it meets; for unique IDs nothing is open.
- Transactions.Txn.GetLatest: scans the version records of the key for the highest sequence instead of seeking; `Entries.GetLatest` has the seek on encoded keys.
- Transactions.Txn.DeleteUpload: iterates its records in any order, because the map it works on has none; the source deletes them in part order.
- Fsck.Checker.Run: visits buckets and records in any order, for the same reason.
