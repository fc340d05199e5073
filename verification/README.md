# Marble, verified

Marble is a log-structured, garbage-collecting object store. Each batch becomes one immutable
file; a table in memory maps object ids to places in files; maintenance copies live objects into
new files and drops the empty ones; opening the store rebuilds everything from the files' trailers.
This project models that machinery in Dafny and proves what it promises. `dafny verify
dfyconfig.toml` checks it all.

It has three layers.

**The protocol under full concurrency.** `Protocol.dfy` is a step system: the location table, the
file map and the cells of every file's record are shared memory; every write and every maintenance
pass is a thread with its own variables; one action is one atomic step, and a run is any
interleaving, with crashes and restarts anywhere. Wherever the source asserts, unwraps or expects,
the action sets `panicked` when the condition fails. `Invariant.dfy` states the invariant,
`Preservation.dfy` and `Reopening.dfy` prove that each action keeps it, and `Concurrency.dfy` and
`Runs.dfy` draw the consequences for every run: no assertion fails, live counts are exact token counts,
the search of the file map finds the writer of every location, an empty file stays unreachable,
maintenance changes no value, locations never come back, claims have one holder and are released.
`Lost.dfy` follows the records that a rewrite wrote but lost to a writer, which later passes still scan;
`Leftovers.dfy` has a run that comes to such a scan.
`Origins.dfy` traces every successful exchange by maintenance back to the scan it relies on.
`Reads.dfy` takes `read` apart into its two steps.

**Crashes.** The documentation says that maintenance blocks writers, but the code takes no lock.
`CrashRefinement.dfy` and `CrashTheorems.dfy` find out how much of it is needed. They take runs in which
no rewrite begins and no file is pruned while some batch is between its reservation and its rename;
everything else may overlap, and runs in which maintenance and `write_batch` exclude one another are a
special case. In these a crash at any step recovers exactly the batches whose rename has happened,
replayed in the order of their sequence numbers. `Overlap.dfy` shows that neither condition can be
dropped: it has a run for each in which only that one is broken and a committed batch is lost by the next
recovery.

**Bytes and programs.** `Trailers.dfy`, `Records.dfy`, `FileNames.dfy`, `DiskLocations.dfy` and
`Sharding.dfy` are the encodings and loops underneath, with their round trips. `Cells.dfy` carries out
each atomic operation on packed 64-bit words and in-memory file records, and proves that it is exactly
one protocol step, in every state the invariant allows. `Store.dfy`, `Maintenance.dfy`, `Upkeep.dfy`,
`Recovery.dfy` and `Opening.dfy` are the store's methods in the source's own form, on file contents,
down to the directory listing; each step they take is mirrored by a protocol step, so that what the
protocol guarantees holds of them. `Ledger.dfy` is the account they give of
themselves: for every write the file that it made and the numbers it took, for every pass a log of the
groups of objects that became files and of the reason why it stopped. `Session.dfy` puts them together: in
any session of batches, maintenance and restarts, a read returns the last value that was applied, and every
step is accounted for from the creation of the store on. `Determinism.dfy` shows how tight these accounts
are: two accounts of one session can differ only in the order of records within files and in the orders in
which passes take generations and objects; those given, which batches are applied, what every object reads
as, and where the session ends are determined.

Proofs hide the definitions they do not need, so that each obligation stays small; the many short
lemmas that only unpack one definition serve that end. The initial state satisfies the invariant
(`Concurrency.InitialInv`), and `Session.Create` constructs a store in good order.

Hypotheses, all of them visible in the statements:

- Sequence numbers stay below bit 62, so that setting the new-write bit is addition. The step system
  has it as a guard of the actions that reserve numbers; the methods return `Exhausted` where it would
  fail.
- For the claims about crashes and restarts: no rewrite begins and no file is pruned between a batch's
  reservation and its rename. Maintenance that does not overlap `write_batch` (README.md, lines 15 and 16
  of the repository) gives this, and is what the methods on bytes go by. Writers may overlap one another.
  The claims about counts, lookups, claims, locations that do not return and maintenance changing no
  value do not need it.
- The checksum is an arbitrary function. Compression is any function that decompression with the same
  dictionary undoes, and a trained dictionary is not empty.
- Object ids and counts fit the machine words that the program keeps them in.

Where the code and its documentation differ, the code is followed: `maintenance` is documented to
return the number of successfully rewritten objects but counts those it attempts, which is the same
number as long as no writer interferes; the writer accepts an object as large as `max_object_size`,
which the scan of maintenance then refuses (`Records.ScanStream` says exactly when); and a write whose
rename fails does not take back locations of objects that had none before, so that its rollback is
complete if and only if every object had one (`Store.RestoredWhen`). `read` is documented to go on beside
everything else, but it looks up the location and the file in two steps, and after a prune between them its
search finds no file, so that its `expect` fails, or another one (`Reads.SplitRead`, `Reads.SplitReadFails`).

## Model

| member | source | states |
|---|---|---|
| DiskLocations.Unshift | src/disk_location.rs:3-20 | packing an address with a tombstone flag and unpacking it undo each other on all words |
| DiskLocations.ToAbsolute | src/disk_location.rs:39-43 | an absolute location unpacks to base plus offset and the entry's own tombstone flag |
| DiskLocations.RawOrder | src/disk_location.rs:55-57 | packed words compare as addresses do, a tombstone just above the object at its address, so one integer order serves the table and the file map |
| DiskLocations.MarkAndMask | src/file_map.rs:140-146 | below bit 62 setting the new-write bit is addition, masking undoes it, and offsets do not disturb either |
| Basics.LeDigits | src/trailer.rs:105-117 | byte i of a little-endian word is its digit of weight 256 to the i: the lowest byte comes first |
| Invariant.LookupFindsWriter | src/file_map.rs:120-128 | the search of the file map downwards from a location finds the very file that wrote it, in both halves of the number space, tombstones and pruned files included |
| Invariant.RawIdentifies | src/location_table.rs:22-38 | two words of one object are equal only if they are the same entry of the same file |
| Preservation.StartWriteKeeps | src/file_map.rs:130-176 | entering a fresh file in the map keeps the invariant, and the new key was free and not zero |
| Preservation.StartGcKeeps | src/writepath.rs:286-297 | so does entering a rewrite, whose objects were scanned from finished, lower files with the same values |
| Preservation.InstallOutcome | src/writepath.rs:312-375 | an installation either replaces exactly the current entry or fails; a rewrite succeeds only if the entry is the scanned one, a fresh write unless a higher one is there; never is the word already present |
| Preservation.InstallKeeps | src/writepath.rs:304-376 | each `cas` or `fetch_max` keeps the invariant, token counts and debug history included |
| Preservation.RenameKeeps | src/writepath.rs:378-429 | writing the trailer and renaming keeps it; the file on disk lacks only entries that hold no token |
| Preservation.DecrementTarget | src/file_map.rs:295-302 | the file charged for a replaced location is the one that wrote it, and not the new file |
| Preservation.DecrementKeeps | src/file_map.rs:290-312 | charging it keeps the invariant: the count had a token to give |
| Preservation.SubtractKeeps | src/file_map.rs:279-287 | subtracting failed installations keeps it and cannot underflow |
| Preservation.AbortGcKeeps | src/file_map.rs:261-268 | abandoning a rewrite that installed nothing keeps it |
| Preservation.ClaimKeeps | src/file_map.rs:86-98 | a claim taken on a file seen some time ago keeps it |
| Preservation.ScanKeeps | src/gc.rs:86-131 | scanning an entry keeps it: what a pass remembers is a real entry with its value |
| Preservation.RemoveKeeps | src/file_map.rs:219-225 | removing a claimed empty file keeps it: nobody points there |
| Preservation.DeleteKeeps | src/lib.rs:352-359 | deleting a file no longer in the map keeps it, and its path is set |
| Reopening.RecoveredEntry | src/recovery.rs:67-72 | the recovered table maps exactly the objects some trailer mentions, each to the latest file in masked order that does |
| Reopening.OrderHolds | src/recovery.rs:73-80 | recovery's assertion on monotonic order holds of any well-formed directory |
| Reopening.NextLsnAbove | src/recovery.rs:83-85 | the next sequence number is above every range on disk |
| Reopening.RecoveredKeeps | src/recovery.rs:59-125 | opening any well-formed directory establishes the invariant, with no panic |
| Concurrency.StepKeepsInv | src/writepath.rs:145-151 | every atomic step of every thread keeps the invariant |
| Runs.RunInv | src/writepath.rs:145-151 | the invariant holds in every state of every run, over crashes and restarts, and every object with a lost record is in the table by way of a finished file |
| Runs.NeverPanics | src/file_map.rs:295-311 | no interleaving makes an assertion, an unwrap or an expect of the protocol fail, the lookup of a scanned record that its file has lost included |
| Lost.StepKeepsLost | src/gc.rs:86-89 | every step keeps this: going back from the table over unfinished writes, every object with a lost record is found in a finished file |
| Lost.RootedOnDisk | src/gc.rs:86-89 | so some trailer on disk mentions it, and the next opening will know it |
| Concurrency.LiveCountIsTokenSum | src/file_map.rs:151-164 | a file's live count is its entries in the table, plus replaced ones not yet charged, plus its entries yet to be installed, plus failed ones not yet subtracted |
| Concurrency.LookupAlwaysFindsWriter | src/file_map.rs:120-128 | in every state the search finds the writer of each table entry and of each replaced location still to be charged, which is never the writing file itself |
| Concurrency.EmptyIsUnreachable | src/file_map.rs:209-217 | nothing points into a file with its path set and a count of zero |
| Runs.EmptyForever | src/file_map.rs:200-225 | and nothing ever will: it stays so through any further steps of the run |
| Concurrency.InstallView | src/writepath.rs:312-375 | an installation by maintenance changes no value; one by a fresh write sets that object's value or loses to a later write |
| Concurrency.OnlyWritesChangeView | src/gc.rs:86-131 | with everything interleaved, only installations by `write_batch` change what any object reads as |
| Runs.NeverReturns | src/debug_history.rs:16-34 | a location an object has left is never its location again |
| Origins.RememberedWasScanned | src/gc.rs:86-131 | whatever a pass or a rewrite remembers of an object it has from a scan earlier in the same opening, when the table had the object there |
| Origins.CasMeansUntouched | src/location_table.rs:22-38 | for every `cas` by maintenance that changes the table there was such a scan of exactly that file and object, and the object stayed at the scanned location all the time since |
| Reads.SplitRead | src/readpath.rs:13-24 | among any other threads, a read that loads the location at one step and searches the map at a later one finds the file that wrote it, with the value the object had at the load, if and only if that file was not pruned in between |
| Reads.SplitReadFails | src/file_map.rs:120-128 | a run in which it was, and the search finds no file |
| Concurrency.OneHolder | src/file_map.rs:86-98 | a file of the map is claimed if and only if somebody holds the claim, and there is one holder |
| Concurrency.AllReleased | src/file_map.rs:31-40 | with no write or pass in progress no claim on a file of the map is left |
| Runs.RemovedOnce | src/file_map.rs:219-225 | a file is removed at most once, and only when empty, whatever stale view the pruners have |
| CrashRefinement.StepKeepsCrashInv | src/recovery.rs:59-123 | every step keeps the relation between disk, table and committed batches, unless it begins a rewrite or prunes a file while a batch is between reservation and rename |
| CrashRefinement.RunCrashInv | src/recovery.rs:59-123 | so it holds in every state of every run without such a step |
| CrashRefinement.ExclusiveRunIsCareful | src/gc.rs:15-26 | runs in which maintenance and `write_batch` never overlap are among these |
| CrashTheorems.ReplayIsLast | src/recovery.rs:65-81 | replaying batches in sequence order leaves each object as the last batch that mentions it says |
| CrashTheorems.CrashRecoversCommitted | src/writepath.rs:378-463 | a crash at any step recovers exactly the renamed batches, replayed in sequence order; unfinished writes, rewrites and pruning leave no trace |
| CrashTheorems.CrashStepRecovers | src/recovery.rs:24-144 | the crash as a step of the run leaves the directory as it is, ends all writes and passes, and the store that comes up holds the renamed batches replayed |
| CrashTheorems.CrashPossible | src/recovery.rs:83-85 | a crash can happen in every state with numbers left for the next opening |
| Overlap.CrashMidWrite | src/writepath.rs:422-429 | a run that crashes between installation and rename: the object read as the new batch says before, and as the old one after |
| Leftovers.LostRecordScanned | src/gc.rs:86-89 | a run that comes to scan a record which its file has lost |
| CrashTheorems.ReturnedIsCommitted | src/writepath.rs:459-467 | once `write_batch` has returned, its whole batch is among the committed ones in every later state, crashes and restarts included |
| CrashTheorems.QuietStoreIsReplay | src/readpath.rs:13-24 | whenever no batch is between reservation and rename, in the middle of maintenance or not, objects read as the committed batches replayed |
| CrashTheorems.MaskedLsnRises | src/location_table.rs:40-56 | through any stretch of a run without reopening, an object stays where it is or its masked sequence number has risen, although its word drops when maintenance moves it |
| CrashTheorems.RestartAgrees | src/recovery.rs:113-125 | closing and reopening a quiet store gives the same table, the same counts for the files left, no claim, and a next number above all ranges |
| Overlap.RewriteLosesCommitted | src/recovery.rs:189-191 | a run without any pruning in which a rewrite begins while a batch is under way: two values are committed, the store reads the second, recovery brings back the first |
| Overlap.PruningLosesCommitted | src/file_map.rs:209-225 | a run without any rewrite in which a batch is overtaken, committed, and its empty file pruned before the overtaking batch is renamed: the committed object is unknown after recovery |
| Trailers.TrailerRoundTrip | src/trailer.rs:18-84 | reading a written trailer gives back its entries in order and its dictionary |
| Trailers.AcceptedIsWritten | src/trailer.rs:21-56 | a buffer is accepted and used up if and only if it is what the writer produces for those entries and that dictionary |
| Trailers.EntryAt | src/trailer.rs:112-117 | entry i of a written trailer lies at 20 + 16 i: eight bytes of object id, then eight of twice the offset, plus one for a tombstone |
| Trailers.WriteTrailer | src/trailer.rs:86-126 | the writer's loop produces a buffer of 20 bytes plus 16 per entry plus the dictionary, from which the reader gets each entry of the map once, and the dictionary |
| Trailers.ReadTrailer | src/trailer.rs:18-84 | the reader's loop refuses any buffer exactly if it is shorter than 20 bytes, its checksum is wrong, or its sizes reach past its end, and otherwise cuts out the entries and the dictionary where these sizes say |
| Records.ChecksumCovers | src/readpath.rs:26-60 | wherever a whole record fits it is read if and only if its first four bytes are the checksum of its length, its id and all its stored bytes, and refused as corrupt otherwise |
| Records.RecordThere | src/gc.rs:67-115 | a record is found at an offset if and only if its header and bytes are there |
| Records.StreamReadsBack | src/readpath.rs:26-65 | every record of an object section is found at its offset, with its id, length and checksum |
| Records.WriteRecords | src/writepath.rs:191-265 | the record loop lays out each object of the batch once: checksum over length, id and stored bytes, then id, length and stored bytes, at the offset it gives; tombstones at offset zero; it gives up exactly if some object is longer than the limit, and names one |
| Records.SpaceIs | src/writepath.rs:191-262 | an object takes 20 bytes more than it is stored in, a tombstone none |
| Records.ScanStream | src/gc.rs:65-134 | scanning finds exactly the written records at their offsets and ends at the trailer, if and only if every stored length is below the limit |
| Records.ScanRecords | src/gc.rs:65-134 | on any bytes the scan loop goes from whole record to whole record, and takes the file for corrupt exactly where there is none below the limit before the end; it terminates |
| FileNames.NameRoundTrip | src/lib.rs:318-336 | a printed name parses back to its four fields and is never taken for a temporary file |
| FileNames.NamesDiffer | src/lib.rs:330-336 | names are injective in all four fields |
| FileNames.NameLayout | src/lib.rs:330-336 | a name spelled out: sixteen lower-case digits each of sequence number, trailer offset and object count, then one or two of generation, highest first, dashes between |
| FileNames.ParseReads | src/lib.rs:318-328 | any name is read by its first four pieces between dashes, whatever follows |
| FileNames.NumeralReads | src/lib.rs:321-326 | numerals of either case are read highest digit first, and a leading plus sign is skipped |
| FileNames.LegendSkipped | src/recovery.rs:175-186 | the legend file is neither opened nor removed |
| FileNames.ReadStorageDirectory | src/recovery.rs:147-192 | the listing is sorted by masked number, holds exactly the entries that parse and are not temporary, and the files removed are exactly those whose names end in tmp |
| FileNames.OpensExactly | src/recovery.rs:163-187 | a file found under its printed name is opened with the fields it was printed from |
| Sharding.ShardBatch | src/writepath.rs:57-113 | a user's batch becomes one group with the last value of each object; a rewrite becomes a partition into non-empty groups: objects of one group have one value of the partition function, tombstones go with the objects of value 0; each group is within the target size but for one object; the groups left open are of different values, and all others are over the target; the size count cannot underflow |
| Sharding.TotalIs | src/writepath.rs:66-97 | in a group's size an object counts its bytes and 20 more, a tombstone nothing |
| Sharding.CollectIsLast | src/writepath.rs:67-83 | a batch maps each object to the data of the last item that names it, and no other object |
| Images.ImageTrailer | src/recovery.rs:62-65 | the trailer of a whole file, cut out at the offset in its name, reads as the file's locations and dictionary |
| Images.ImageObject | src/readpath.rs:26-72 | reading a whole file at an object's offset gives that object's record, which decodes to its value |
| Images.ImageScan | src/gc.rs:55-134 | scanning a whole file sees every object that is not a tombstone, where the trailer says, with its value, and nothing else but the records the file has lost |
| Images.ImageStored | src/writepath.rs:214-260 | an object lies at its offset as it is if the file has no dictionary, and compressed with the dictionary otherwise |
| Images.ImageReadable | src/gc.rs:76-84 | a file is taken for corrupt by maintenance if and only if some object in it is stored in as many bytes as the limit or more |
| Images.NewImage | src/writepath.rs:398-455 | written records followed by a written trailer are such a file, of exactly the asserted length |
| Effects.WordsDecide | src/location_table.rs:50-53 | comparing words decides installations: equal words mean equal entries, and a fresh word is never present, so the assertion in `fetch_max` holds |
| Cells.Shared.Install | src/writepath.rs:304-376 | on words, one installation is exactly the protocol's step, in any state the invariant allows, and reports its outcome |
| Cells.Shared.Insert | src/file_map.rs:130-176 | reserving a range and entering the file is exactly the protocol's step; both assertions hold |
| Cells.Shared.DecrementOne | src/file_map.rs:295-311 | search, assertions and decrement on records are exactly the protocol's step |
| Cells.Shared.InstallPath | src/lib.rs:383-389 | the path pointer was null and is now set, as one protocol step |
| Cells.Shared.InstallMetadata | src/lib.rs:391-393 | the metadata pointer likewise |
| Cells.Shared.SubtractFailed | src/file_map.rs:281-285 | the subtraction likewise, without underflow |
| Cells.Shared.Unclaim | src/file_map.rs:31-40 | dropping the writer's claim finds it set |
| Cells.Shared.Release | src/file_map.rs:31-40 | dropping a pass's claim finds it set, or the file gone |
| Cells.Shared.TryClaim | src/file_map.rs:88-98 | the swap succeeds for exactly one holder, as one protocol step |
| Cells.Shared.RemoveFam | src/file_map.rs:219-225 | the removal finds the file, as one protocol step |
| DebugHistories.DebugHistory.MarkInstall | src/writepath.rs:325-368 | on words, the marks of a successful installation satisfy every assertion of the debug history, in every state of every run |
| Sequential.FreshIsHighest | src/writepath.rs:354-356 | a fresh file's locations are above everything in the table |
| Store.Marble.InstallAll | src/writepath.rs:299-376 | an undisturbed write installs all its objects and notes exactly the locations they replace |
| Store.Marble.DecrementAll | src/file_map.rs:290-312 | every replaced location is charged, and nothing else in the map changes |
| Store.Marble.WriteBatchInner | src/writepath.rs:123-468 | success puts the batch in the table, the map and the directory, whole; it is refused exactly when some object is oversized, and the numbers are exhausted exactly when the records with the trained dictionary need more than there is; the numbers used are stated; a failed rename restores the table but for objects that had no location, and the file map entirely |
| Store.Marble.RollBack | src/writepath.rs:433-451 | with all objects known before, a failed rename leaves table, file map and directory as they were |
| Store.Marble.WriteBatch | src/writepath.rs:30-37 | the batch is refused if and only if the last item for some object is longer than the size limit, and the object named is one; otherwise, if the numbers suffice and the rename succeeds, the contents become the old ones overlaid with the last value of each object; the one file it leaves has the printed name with its length and object count, the trained dictionary exactly with compression on, and each object at the word in the table, as it is or compressed with that dictionary; in all other cases nothing but the next number changes, so that after a failed rename too all objects known before still read as before |
| Store.Marble.Read | src/readpath.rs:13-75 | returns the last value written or nothing; the search, checksum and id checks never fail and the offset is the record's |
| Selection.SecondPassIdle | src/file_map.rs:74-86 | after a successful pass, with small-file cleanup off before and after, no group is large enough to rewrite |
| Selection.CompactedIs | src/file_map.rs:62-118 | which files are rewritten, in numbers: those with metadata and something live, of whose objects fewer than the given percentage are live, or that are small while the map holds many files, if enough such files move to the same generation |
| Selection.NextGenerationIs | src/file_map.rs:53-100 | generations 0 and 1 move to 1 and 2, all others to 3 |
| Maintenance.ClaimFiles | src/file_map.rs:49-118 | a file is claimed if and only if it has metadata, is not empty, and 100 times its live objects is less than the percentage times its objects, or the map has at least the threshold of files and its size times the minimal number of files is below the target; it is listed under the generation one above its own, but at most 3 |
| Maintenance.ScanFile | src/gc.rs:44-166 | exactly the live objects of the file are taken over, with their values and current locations, and records the file has lost are passed over; it fails only on a record at the size limit |
| Maintenance.Rewrite | src/gc.rs:173-174 | the gathered objects are divided into groups, each of which becomes a file that holds nothing else, in order; no value changes; a failure leaves exactly the first groups moved, and the next one was oversized, had too few numbers left at that point, or failed to be renamed |
| Maintenance.CompactAll | src/gc.rs:28-178 | all generations with enough files are compacted, exactly what was live in them has moved and was counted, and a log accounts for each file written; otherwise the log ends with the file that could not be read or the group that could not be written |
| Upkeep.ReleaseAll | src/file_map.rs:31-40 | every claim of the pass is released and nothing else changes |
| Upkeep.Prune | src/file_map.rs:191-230 | exactly the empty files leave the map and the directory |
| Upkeep.SumIsCount | src/file_map.rs:243-259 | the live counts of any files add up to the number of objects the table has in them |
| Upkeep.TotalIsTable | src/file_map.rs:243-259 | over all files they add up to the size of the table |
| Ledger.NumbersOfPass | src/file_map.rs:140-146 | a pass takes exactly the sequence numbers of the files it has written, and of one more if its rename failed |
| Ledger.WhyHalted | src/gc.rs:28-178 | a pass gives up only for a file of a compacted generation with a record at the limit, or for a group of that generation's live objects that is oversized, does not fit into the numbers left when its turn comes, or fails to be renamed |
| Upkeep.Maintain | src/gc.rs:15-184 | a pass changes no value, and a log accounts for the whole change of memory and every number taken; it succeeds exactly when the log is complete, and then the files gone are exactly the empty ones and those that the numbers of `ClaimFiles` pick together with enough others of their generation, it returns the live counts of the latter added up, new files are fully live, the rest is untouched; with nothing to compact it takes no numbers; it always ends with all claims released |
| Upkeep.MaintainTwice | src/gc.rs:15-184 | right after a successful pass another one succeeds, rewrites nothing, takes no numbers and changes neither table nor file map, as long as the file count is below the small-file threshold before each |
| Recovery.ApplyTrailer | src/recovery.rs:67-81 | applying a trailer overlays the table with its entries, and the assertion on masked order holds for each |
| Recovery.LatestIsRecovered | src/recovery.rs:59-81 | trailers applied in masked order give, for each object, the entry of the latest file that mentions it |
| Recovery.OrderIs | src/recovery.rs:147-192 | the listing of a store's directory names each of its files once, lowest base first |
| Recovery.Rebuild | src/recovery.rs:59-105 | the loop over files rebuilds the table, the records and both maxima, and finds no key twice |
| Opening.CountLive | src/recovery.rs:111-123 | every object is counted for the file that the search finds, so each count is that file's entries in the table |
| Reopening.NextLsnIs | src/recovery.rs:83-125 | the next sequence number is 1 in an empty directory, and otherwise one more than the highest base and the greatest file size together |
| Opening.Open | src/recovery.rs:24-144 | opening any well-formed directory, whatever run left it, yields the recovered state of the protocol with that next number, and fails exactly if it is beyond the new-write bit; no temporary file is left |
| Opening.Close | src/lib.rs:352-359 | dropping the store leaves exactly the files that are not empty |
| Opening.Restart | src/recovery.rs:24-144 | closing and reopening keeps contents, table and the records of the files left, and fails exactly when no numbers are left |
| Session.Create | src/recovery.rs:33-41 | opening an empty directory gives an empty store in good order |
| Session.TraceIsModel | src/writepath.rs:30-37 | at every point of any session objects read as the batches applied so far, one after the other |
| Session.NeverIgnored | src/writepath.rs:30-37 | in any session a batch within the size limit and the numbers left, whose rename succeeds, is applied, and its objects read as it says through any maintenance and restarts up to the next batch |
| Session.SessionDetermined | src/lib.rs:436-455 | two accounts of one session whose passes went alike agree on which batches are applied, on where it ends, and at every point on the next number, the files but for the order within them, and every value; passes with nothing to compact always go alike |
| Determinism.PassAlike | src/gc.rs:15-184 | two stores alike but for the order of records within files are still so after passes with the same log |
| Determinism.ReopenedAlike | src/recovery.rs:24-144 | and after being reopened, although recovery attributes objects by locations that differ |
| Session.Run | src/lib.rs:436-455 | runs any session of batches, maintenance and restarts and accounts for every step from an empty memory on: a batch is applied if and only if it fits the size limit and the numbers left then, and its rename succeeds, and becomes one file of the stated size; a pass does what its log says; a restart rebuilds memory from the files left; the session ends if and only if a rename fails on an object never seen before or numbers run out at a restart; the store holds exactly the applied batches |
| Session.RunAndRead | src/readpath.rs:10-75 | with the same account, a read at the end returns the last value applied, or nothing |

## Left out

- Process crashes in the middle of a write are covered by the step system, not by the methods on bytes: the bytes of a half-written temporary file are never looked at again, because recovery removes it by its name.
- Store.Marble.WriteBatchInner: what is left in the temporary file after an oversized object is not specified, and the branch that abandons a rewrite which installed nothing is not taken in an uninterrupted write; the step system has it (`Preservation.AbortGcKeeps`).
- Store.Marble.Read: reads bytes in one step; for the two steps of the source, with other threads in between, `Reads.SplitRead` says where the search leads and which value is there, not the bytes.
- `fetch_add` on the next sequence number and the insertion into the file map are one step, and `live_objects` is an unbounded integer whose non-negativity is proved.
- A maintenance thread of the step system may look, claim, scan, rewrite and release in any order its data allow, which includes the order of the source.
- Rollback with other threads at work: the source calls it best-effort mitigation.
- fsync policy, the directory lock, buffering and lost page cache: a rename is atomic and durable.
- zstd's training and compression, thread-local decompressors and uninitialised buffers: foreign code, represented by functions with one law.
- Overflow of `offsets * 16` in a trailer that passes its checksum is taken for the slice panic that a checked build gives.
- Statistics other than live counts, logging, debug delays, the hasher, the default partition function, benches and examples: nothing hard to state.
- `free_object_ids` and `allocated_object_ids`: the documentation calls deleted ids free, but tombstones keep their place in the table.
- The feature-gated check that a file is uninhabited: its range is empty for files of tombstones and it uses a field the table lacks; the fact itself follows from `Concurrency.EmptyIsUnreachable`.
- Whether repeated maintenance settles while small-file cleanup is on: small files can be rewritten by every pass.
- The internals of the concurrent map and the page table: an ordered map and an array of atomic cells.
