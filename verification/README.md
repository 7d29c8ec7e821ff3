# A verified model of the BlueStore backend and of the reference it stands in for

The repository holds two implementations of one storage contract. One keeps
Swift objects in BlueStore: an engine of Objects with states, whose
transactions wait in a queue (`bluestore/src/injection`), and a Device that maps
names to Objects and takes every decision in one step
(`bluestore/src/bluestore/device.py`). The other is Swift's own, with its rules
for the files that define an object (`swift_patches/obj/bs_diskfile.py`). This
project models both in Dafny, proves what each guarantees, and proves that they
show the same objects.

    dafny verify dfyconfig.toml

## How the pieces fit

**The store.** `Engine` has addresses, attributes and operations; `Journals` the
history of one mount: every operation ever prepared, the store each of them
leaves, and what has been decided about every entry. The last store is the
*virtual store*, where the whole queue has landed. `Objects`, `Transactions` and
`HandOver` say what each call on an Object prepares, and prove that it can be
applied when its turn comes and keeps the invariants of the store.
`EngineObjects` holds the classes that do this in the source, method by method,
each proved to be the step the other modules speak of.

**The Device.** `Device` is a transition system. A step is what runs between two
yield points: code on the hub, one access to the store by a thread of the pool,
one operation of a handed-over transaction landing, a commit, a request
beginning, an Object let go. Requests keep a program counter through
`open`, `read_metadata`, chunked reads, decisions and `sync`. `DeviceSpec` is
what it is meant to be, a map from names to versions changed by one decision at
a time, and the invariant that ties the two; `DeviceReads`, `DeviceFrame`,
`DeviceSteps`, `DeviceWrites`, `DeviceDecide` and `DevicePuts` prove that every
step keeps it. `DeviceRuns`, `DeviceAudit`, `DeviceCuts`, `DeviceDurable`,
`DeviceGets` and `DeviceDrafts` add what spans a whole run, and `DeviceTheorems`
states the results for every run of any number of requests, `DeviceRetries` how
often a read is tried. `DevicePaths` and `DeviceAlone` are about the other
direction: from whatever state a run has reached, a request that is left alone
is answered, with the one answer the specification has for it; `DeviceExample`
takes one PUT and one GET all the way. `Decisions` says what a sequence of
decisions leaves. `Crash` lets every collection keep a prefix of its own, and
`Sweep` shows that what comes up is, once swept, a store the Device starts from,
so that everything holds again. `Submit` is the lock protocol between the
threads that prepare transactions and the store, `RangeReader` the reader by
itself.

**The reference rules.** `OnDisk` is the search over a directory, imperative as
in the source. `Filesets` has the same rules on sets and their closed form, and
proves that cleaning up never changes a later choice; `Listings` proves the
search to be those rules, whatever the order of the listing, and `Cleanup` what
the cleanup leaves. `ErasureFiles` is the erasure-coded search, `ErasureRules` what it
finds, said of the files, and `ErasureCleanup` what its cleanup leaves;
`ErasureHashes`, `ErasureNames` and `ErasureReader` treat the other sides of
erasure-coded objects, `HashCache` the suffix hashes and
the log of invalidations under any number of concurrent processes, `HashRuns`
where in a run each hash comes from, and `HashJobs` what is answered.

**The bridge.** `Metadata` has the rules of the two-section blob. `Bridge` proves
that the blob shows, after every sequence of operations, what the reference reads
from its cleaned directory, and that the order of the operations does not
matter; `DeviceBridge` carries this through to every run of the Device.

## Assumptions

They are preconditions of the theorems or guards of the steps, and the code
relies on them without enforcing them.

- For one name, the clock's stamp of a version being written is not the
  timestamp another version is put with, nor the other way round
  (`Device.Separate`): both index the same temporary generation, and where they
  meet the put's transaction cannot be applied (`HandOver.EstimateCollides`).
- Operations on one name differ in their ticks, callers hand puts and deletes
  the ticks of the X-Timestamp they send along (`DeviceBridge.CallersTick`), and
  PUTs carry a Content-Type. A POST's
  Content-Type-Timestamp comes with a Content-Type, is not later than the POST,
  differs from every PUT's and DELETE's time, and equal ones mean equal types
  (`Bridge.Sensible`). How far a content type may be dated ahead without harm to a
  cleanup, and from where on it does harm, is `Filesets.DatedAheadExactly`.
- JSON and Timestamps round-trip. Transactions of one collection become durable
  in order. No reclaim age is reached where two backends are compared.
- `time.time()` stamps in hashes.pkl are new on each write, and a three-letter
  name in a partition that is not a suffix is not a directory.
- A directory lists a file name once. A legacy `.durable` file without data is
  allowed for: `ErasureCleanup.RemovedTwiceIs` says exactly when it makes the
  cleanup stumble.

## Where code and documentation differ

- `_get_hashes` retries for as long as it loses the race; so do `open` and
  `read_metadata`. What is proved of them is what they return, and of a request
  to the Device that it is answered when left alone.
- `cleanup_ondisk_files` raises ValueError on a file that is obsolete and
  reclaimed at once, which its description does not mention; when that is, is
  `ErasureCleanup.RemovedTwiceIs`, and what it leaves of the directory,
  `ErasureCleanup.CleanupErasureFiles`.
- A second preference for a timestamp that had nothing to offer raises KeyError
  in the erasure-coded search, where the documentation speaks of descending
  preference only; when that is, is `ErasureRules.KeyErrorIs`.

## Model

| member | source | states |
|---|---|---|
| DeviceTheorems.Linearizable | bluestore/src/bluestore/device.py:124-163 | In every state of every run each name virtually shows exactly the decisions so far, folded in their order by the put, delete and post rules |
| DeviceTheorems.AnswersAgree | bluestore/src/bluestore/device.py:124-163 | A client told done, conflict or dropped had exactly one decision taken, one told failed at most one, which changed nothing; it is on what was asked for, and answered as the specification says; a PUT's carries the bytes of every write to its Object up to then, joined in order |
| DeviceTheorems.TakesEffect | bluestore/src/bluestore/device.py:136-163 | A PUT or DELETE told done leaves under its name its timestamp, all the bytes written or none, and the metadata that was handed in; without any, a tombstone has the time made of the timestamp and nothing else |
| DeviceTheorems.RunDrafts | bluestore/src/injection/object.cpp:106-126 | In every state of every run an Object being written has the bytes of every write to it, joined in order, and the decision of a PUT carries those |
| DeviceTheorems.RealTimeOrder | bluestore/src/bluestore/device.py:124-163 | Decisions keep their place, and a request decides after everything decided before it began |
| DeviceTheorems.GetsLinearize | bluestore/src/bluestore/device.py:20-118 | A body is the asked range of one version the name showed while the GET ran; not found and deleted were true at such a moment; it fails only if a put or delete of the name took effect while it ran, and has no other outcome |
| DeviceTheorems.WritesFailOvertaken | bluestore/src/bluestore/device.py:20-29 | A put, delete or POST fails only because its POST was refused, or if a put or delete of the name took effect while it ran |
| DeviceRetries.GivesUpAtTheFifth | bluestore/src/bluestore/device.py:17-29 | A request is told failed exactly with the fifth missed check of one read, but for a POST that is refused; no read misses more |
| DeviceAlone.AGetIsAnswered | bluestore/src/bluestore/device.py:54-118 | From any state a run has reached, a GET that is left alone is answered: not found, deleted, or served exactly the asked range of what the decisions before it have made of the name; nothing else changes |
| DeviceAlone.AWriteIsAnswered | bluestore/src/bluestore/device.py:124-163 | From any such state a put, delete or POST that is left alone takes one decision, on what it asked for, and is told what the specification says of it, with its transaction durable first |
| DeviceAlone.WhatIsWrittenIsServed | bluestore/src/bluestore/device.py:93-163 | From any such state a newer PUT left alone is told done, and a GET after it is served the range it asks for of all the bytes written, in order |
| DeviceTheorems.MetadataIsCurrent | bluestore/src/bluestore/device.py:103-118 | A metadata read that ends at the version it began with returns one whole header, the latest prepared, for every chunk size |
| DeviceTheorems.QueueApplies | bluestore/src/injection/internal.cpp:176-216 | In every reachable state every queued operation is applicable in its turn |
| DeviceTheorems.OneOwnerEach | bluestore/src/injection/object.cpp:29-45 | Each live Object with an entry owns exactly one, at the address of its state; no two share one; every temporary entry has an owner; the map's Object owns the name |
| DeviceTheorems.DoneIsDurable | bluestore/src/injection/object.cpp:156-167 | A change confirmed to its client lies within what its collection keeps over a crash |
| DeviceTheorems.RunSane | bluestore/src/bluestore/device.py:54-163 | All invariants hold in every state of every run from a mounted store |
| DeviceExample.APutIsServed | bluestore/src/bluestore/device.py:120-163 | There is a run in which a PUT of two chunks on an empty store is told done and a GET is served the range it asks for of both joined |
| DeviceRuns.StepOk | bluestore/src/bluestore/device.py:54-163 | Every enabled step keeps the invariant of store, queue, Objects, map and requests |
| DevicePuts.DecideOk | bluestore/src/bluestore/device.py:124-163 | Every decision, whichever the request, keeps the invariant |
| DevicePuts.HandNameOk | bluestore/src/bluestore/device.py:136-163 | Handing a name over, or losing it to a newer holder, changes what one step of the specification changes |
| DevicePuts.DecideDeleteOk | bluestore/src/bluestore/device.py:136-148 | A delete with its new tombstone keeps the invariant and is one step of the specification |
| DeviceDecide.DecidePostOk | bluestore/src/bluestore/device.py:124-134 | A POST rewrites the holder's metadata as the specification does, or changes nothing |
| DeviceDecide.DecidingSees | bluestore/src/bluestore/device.py:54-88 | What a decision is taken on is the virtual holder and its latest metadata |
| DeviceReads.StepReadingOk | bluestore/src/bluestore/device.py:103-118 | Each access of a metadata read keeps what is read right unless the version has moved |
| DeviceReads.StepServingOk | bluestore/src/injection/object.cpp:70-87 | Each access of a body read keeps the bytes so far a prefix of one version's range, while entries are renamed one operation at a time |
| DeviceSteps.SearchSees | bluestore/src/injection/object.cpp:52-68 | What a search finds in the visible store is what the virtual store holds, though it cannot see the queue |
| DeviceSteps.LandOk | bluestore/src/injection/internal.cpp:209-214 | One more operation becoming visible keeps the invariant |
| DeviceWrites.ReleaseOk | bluestore/src/injection/object.cpp:35-45 | Letting go of an Object removes its temporary entry and nothing else |
| DeviceGets.StepKeeps | bluestore/src/bluestore/device.py:54-163 | No step changes the data of a version that has held its name, nor replaces an Object a request reads |
| DeviceDrafts.StepWrites | bluestore/src/injection/object.cpp:106-126 | A write adds its bytes to the end of its Object's data, and no other step changes the data of an Object being written |
| DeviceAudit.AuditKept | bluestore/src/bluestore/device.py:124-163 | One decision a request, taken while it runs and answered as the specification says |
| DeviceCuts.CutsKept | bluestore/src/injection/internal.cpp:120-162 | At the end of every transaction the store is tidy and shows a prefix of the decisions |
| DeviceDurable.KeptKept | bluestore/src/injection/object.cpp:156-167 | What a request waits for, or has seen durable, includes its own decision's transaction |
| Decisions.HolderIsNewest | bluestore/src/injection/backend.cpp:177-179 | The holder's timestamp is the running maximum of all puts and deletes |
| Decisions.HolderIsWinner | bluestore/src/injection/backend.cpp:168-198 | The bytes shown are those of the first put with the greatest timestamp |
| Crash.Survivors | bluestore/src/injection/internal.cpp:120-131 | With any prefix kept by each collection, a name's addresses hold what that prefix of its own collection left |
| Crash.CrashConsistent | bluestore/src/injection/backend.cpp:168-198 | After a crash each name shows a prefix of the decisions with every confirmed one in it |
| Crash.CrashTidy | bluestore/src/injection/internal.cpp:124-162 | After a crash every entry is where its attributes say, and none is at two addresses |
| Sweep.CleanCollection | bluestore/src/injection/backend.cpp:128-166 | The batched scan visits a prefix of the listing, each entry once, and queues a removal for each temporary one in it |
| Sweep.Clean | bluestore/src/injection/backend.cpp:155-166 | What is queued is one removal for each temporary entry and nothing else; each can be applied in its turn, and the last leaves exactly the ordinary entries, as they were |
| Sweep.SweepLands | bluestore/src/injection/backend.cpp:155-166 | Any such queue, in any order, applies in full and leaves that |
| Sweep.Recovery | bluestore/src/bluestore/device.py:41-52 | What the sweep's queue leaves of a crashed store is a store the Device starts from, with every confirmed change in it |
| HandOver.PutOk | bluestore/src/injection/backend.cpp:168-198 | A put's transaction can be applied, keeps the store's invariants, and changes exactly the holder's and the new Object's entries |
| HandOver.PutAppliesExactly | bluestore/src/injection/backend.cpp:183-197 | A put's operations can all be applied in order exactly if nothing sits where the holder retires to |
| HandOver.EstimateCollides | bluestore/src/injection/internal.cpp:124-131 | An estimate equal to the holder's timestamp makes the put's transaction inapplicable |
| HandOver.PutHolders | bluestore/src/injection/backend.cpp:168-198 | After a put the new Object holds the name, and every other name is held as before |
| Transactions.WroteOk | bluestore/src/injection/object.cpp:106-126 | A write appends its bytes to the Object's entry, starting it if it is new, and touches no other |
| Transactions.MarkedOk | bluestore/src/injection/object.cpp:128-147 | Writing metadata replaces the header of the Object's entry and touches no other |
| Transactions.RemovedOk | bluestore/src/injection/object.cpp:35-45 | The destructor's transaction removes the Object's one entry and touches no other |
| Transactions.RegisteredOk | bluestore/src/injection/backend.cpp:120-122 | A new Object with a fresh stamp keeps every invariant |
| Journals.AppendOk | bluestore/src/injection/internal.cpp:176-192 | One more operation keeps, in every store on the way, content, addresses and holders right |
| EngineObjects.Object.Write | bluestore/src/injection/object.cpp:106-126 | The method prepares that transaction and changes the fields so, or raises StateError and changes nothing |
| EngineObjects.Object.WriteMetadata | bluestore/src/injection/object.cpp:128-147 | The same for metadata, allowed on the holder too |
| EngineObjects.Object.Tombstone | bluestore/src/injection/object.cpp:149-154 | Only an Object nothing was written to becomes a tombstone |
| EngineObjects.Object.Open | bluestore/src/injection/object.cpp:52-68 | A search ends with what is stored at the ordinary address, or as missing |
| EngineObjects.Object.Read | bluestore/src/injection/object.cpp:70-87 | Bytes of the range if the entry is still the Object's, ChangedError if not |
| EngineObjects.Object.ReadMetadata | bluestore/src/injection/object.cpp:89-104 | The same for the header, clipped to its length |
| EngineObjects.Object.Destroy | bluestore/src/injection/object.cpp:35-45 | A removal is prepared exactly for an Object being written or retired |
| EngineObjects.Object.Move | bluestore/src/injection/object.cpp:29-33 | Everything is the new Object's, and the old one's destructor will prepare nothing |
| EngineObjects.Put | bluestore/src/injection/backend.cpp:168-198 | The three refusals in their order, without effect; or one transaction that retires the holder and settles the new Object |
| EngineObjects.Estimates | bluestore/src/injection/internal.cpp:84-94 | Estimates of a process strictly increase, whatever the clock does |
| Submit.InOrder | bluestore/src/injection/internal.cpp:194-216 | For any number of threads, handed over, in hand and queued together are the prepared transactions in order |
| Submit.NeverStranded | bluestore/src/injection/internal.cpp:194-216 | What was prepared when some submit was called has been handed over once the submit lock is free |
| RangeReader.AppIterRange | bluestore/src/bluestore/reader.py:17-32 | The chunks join to the bytes from start to the smaller of stop and size, none empty or too long |
| RangeReader.Read | bluestore/src/bluestore/device.py:93-101 | One chunk clipped to the end and the chunk size, and whether it came up short |
| Bridge.BackendsAgree | bluestore/src/bluestore/metadata.py:22-94 | After any operations that begin with a PUT or DELETE the blob shows what the reference's directory, cleaned after each, shows: the same data, metadata and three timestamps |
| Bridge.BackendsAgreeOnOwnFiles | bluestore/src/bluestore/metadata.py:22-94 | The same with nothing supposed about the files but that the operations wrote them |
| Bridge.TypeOutlivesItsPost | swift_patches/obj/bs_diskfile.py:1126-1151 | A PUT and two POSTs that meet every assumption: the view is the newer POST's, with the content type of the older, which the search therefore keeps |
| Bridge.BlobClosed | bluestore/src/bluestore/metadata.py:60-94 | The blob depends on the set of operations only: newest PUT or DELETE, newest later POST, greatest later content type |
| Bridge.OrderDoesNotMatter | bluestore/src/bluestore/metadata.py:60-94 | Any two orders that begin with a PUT or DELETE end in the same view, in both backends |
| Bridge.CleaningIsInvisible | swift_patches/obj/bs_diskfile.py:1188-1245 | Cleaning after every operation changes no choice, now or later |
| Bridge.SameMerge | swift_patches/obj/bs_diskfile.py:2944-3005 | Merging the blob's sections gives what the reference constructs from its files |
| Bridge.PostMeta | bluestore/src/bluestore/metadata.py:75-94 | A POST leaves the newest POST's items with the greatest content type in the second section |
| Bridge.NewAnchorMeta | bluestore/src/bluestore/metadata.py:59-73 | A newer PUT or DELETE keeps the second section exactly while its POST is newer still |
| Metadata.PostAnswers | bluestore/src/bluestore/metadata.py:75-94 | A POST is dropped exactly if there is nothing to be on or it brings nothing newer, and refused exactly if the content type to be taken over is dated but not named |
| Metadata.MergedItems | bluestore/src/bluestore/metadata.py:22-34 | Of the items shown each is the POST's, but for what a POST can never change, which is the PUT's |
| Metadata.SystemKeys | bluestore/src/bluestore/metadata.py:24-26 | Which keys those are, whatever their case: four by name and all system metadata, no user's |
| DeviceBridge.FoldIsBlob | bluestore/src/bluestore/metadata.py:43-94 | The Device's specification, name by name, is the fold of the blob's rules, from what the mounted store has of the name |
| DeviceBridge.DecidedTick | bluestore/src/bluestore/device.py:136-163 | When callers hand over the ticks of their own X-Timestamp, every put and delete is decided at the ticks of the X-Timestamp it stores, a tombstone's made-up one among them |
| DeviceBridge.DeviceMatchesReference | bluestore/src/bluestore/device.py:124-163 | In every run every name, found at the mount or not, shows what the reference shows after the same operations |
| DeviceBridge.NextMountRemembers | bluestore/src/bluestore/device.py:41-52 | After any crash and sweep the next mount has of a name what the operations it kept made of it, so the two backends agree from mount to mount |
| OnDisk.GetOndiskFiles | swift_patches/obj/bs_diskfile.py:1082-1186 | Each file is kept or obsolete, listed once; the choice is made from what is kept; unparsable names are reported; the contract check never fails |
| OnDisk.RetainedMetasAre | swift_patches/obj/bs_diskfile.py:1126-1155 | Of any .meta files at most two are retained, the newest and one with the greatest content-type timestamp, the second only if it is older and its content type newer; of those of one timestamp one |
| OnDisk.SortedOk | swift_patches/obj/bs_diskfile.py:1109-1112 | Sorting is a descending permutation |
| Listings.SearchIsChosen | swift_patches/obj/bs_diskfile.py:1082-1186 | The search chooses by the set of files alone, not by the order it finds them in |
| Listings.ObsoleteIs | swift_patches/obj/bs_diskfile.py:3217-3243 | A file is obsolete exactly if the rules do not keep it, and it is listed as such once |
| Filesets.ChosenIsClosed | swift_patches/obj/bs_diskfile.py:1114-1172 | The choice in closed form: newest of data and tombstones, newest later .meta, newest later content type |
| Filesets.CleanupKeepsTheFuture | swift_patches/obj/bs_diskfile.py:1188-1245 | Removing obsolete files never changes a later choice, whatever files arrive, while no content type is dated more than one unit ahead of its POST |
| Filesets.DatedAheadChangesTheFuture | swift_patches/obj/bs_diskfile.py:1126-1151 | For every .meta file dated further ahead there is a directory where it does |
| Filesets.DatedAheadExactly | swift_patches/obj/bs_diskfile.py:1126-1151 | So a .meta file is harmless in every directory exactly if it is dated at most one unit ahead |
| Cleanup.ObjectDir.CleanupOndiskFiles | swift_patches/obj/bs_diskfile.py:1188-1245 | Exactly the obsolete and the reclaimable files go, each once, without a ValueError |
| Cleanup.CleanedFileset | swift_patches/obj/bs_diskfile.py:1188-1245 | Before any reclaim age the directory holds exactly the kept files |
| ErasureFiles.ProcessErasure | swift_patches/obj/bs_diskfile.py:3774-3907 | Scan, choice, what is kept and what is up for reclaiming, for every fragment index and preferences; it fails exactly where the choice raises KeyError |
| ErasureFiles.ScanOk | swift_patches/obj/bs_diskfile.py:3781-3820 | The sets are the fragments by timestamp, newest first, down to the newest durable timestamp |
| ErasureFiles.ChooseSet | swift_patches/obj/bs_diskfile.py:3822-3860 | A preference is met if the earlier ones cannot be; if none can, the newest set none is about. KeyError exactly if a preference repeats a timestamp that has a set and none before it can be met |
| ErasureFiles.DurableChoice | swift_patches/obj/bs_diskfile.py:3858-3872 | Without preferences the fragment is of the newest durable set, the one asked for or of the highest index |
| ErasureFiles.NewerThanTombstone | swift_patches/obj/bs_diskfile.py:1114-1124 | Nothing considered is as old as the newest tombstone |
| ErasureFiles.GetErasureFiles | swift_patches/obj/bs_diskfile.py:1082-1186 | The whole search: when it raises KeyError; each file is kept, hidden or obsolete, and once; what it chooses, offers for reclaiming and reports is what the policy found; its contract check never fails |
| ErasureRules.KeyErrorIs | swift_patches/obj/bs_diskfile.py:3822-3847 | KeyError, said of the files: two preferences are about one timestamp with fragments no durable ones supersede, and no preference before the later of the two has a fragment it does not exclude |
| ErasureRules.AskedTwiceFails | swift_patches/obj/bs_diskfile.py:3822-3847 | One fragment and two preferences, the second of which could be met, for which it is raised |
| ErasureRules.OfferedIs | swift_patches/obj/bs_diskfile.py:3789-3820 | There is a set for a timestamp exactly if it has fragments and no newer durable timestamp has |
| ErasureRules.ChosenIs | swift_patches/obj/bs_diskfile.py:3822-3860 | The timestamp the fragment is taken from, said of the files and the preferences |
| ErasureRules.SpareIs | swift_patches/obj/bs_diskfile.py:3895-3901 | Up for reclaiming are exactly the fragments offered at a timestamp neither durable nor chosen |
| ErasureCleanup.FragmentGoes | swift_patches/obj/bs_diskfile.py:3884-3893 | A fragment is obsolete for the whole search exactly if a tombstone is not older or something live and newer makes its timestamp durable |
| ErasureCleanup.DurableSetSurvives | swift_patches/obj/bs_diskfile.py:3884-3901 | No live fragment at or after the durable timestamp is obsolete, and none of the durable set is up for reclaiming |
| ErasureCleanup.ObsoleteErasureIs | swift_patches/obj/bs_diskfile.py:1082-1186 | A file is obsolete exactly if it is neither kept nor hidden, and listed as such once |
| ErasureCleanup.RemovedTwiceIs | swift_patches/obj/bs_diskfile.py:3884-3907 | A file is both obsolete and up for reclaiming exactly if it is a live fragment, not of the chosen timestamp, older than a .durable file that is the newest mark and has no data |
| ErasureCleanup.NothingTwice | swift_patches/obj/bs_diskfile.py:3884-3907 | With no .durable file without data, nothing is both |
| ErasureCleanup.StrayDurable | swift_patches/obj/bs_diskfile.py:3884-3907 | A directory of two files where one is |
| ErasureCleanup.CleanupErasureFiles | swift_patches/obj/bs_diskfile.py:1188-1245 | The cleanup under this policy: exactly the obsolete and the old enough go, each once; KeyError and ValueError exactly on the conditions above, and what is left of the directory then |
| ErasureHashes.UpdatesAgree | swift_patches/obj/bs_diskfile.py:3930-3959 | Two directories have the same sequence of hash updates exactly if their newest durable timestamps with data agree and they have as many files for each fragment at or after it |
| ErasureHashes.UpdatesAre | swift_patches/obj/bs_diskfile.py:3930-3959 | Said of the files: a fragment is among the updates as often as there are files of it, if no newer durable timestamp has data; the durable mark once and last, exactly for the newest durable timestamp that has data |
| ErasureHashes.HashesAreStable | swift_patches/obj/bs_diskfile.py:3930-3959 | Replacing legacy .durable files by marks leaves the sequence of updates unchanged exactly if no counted fragment is there both marked and unmarked at a time a .durable file is for |
| ErasureHashes.WrittenAgain | swift_patches/obj/bs_diskfile.py:3930-3959 | A directory where a fragment is there twice and the updates change |
| ErasureHashes.UpdateSuffixHashes | swift_patches/obj/bs_diskfile.py:3945-3959 | The loops make exactly that sequence |
| ErasureNames.RoundTrip | swift_patches/obj/bs_diskfile.py:3629-3736 | A name that was made parses to the same timestamp, index and mark, or is refused if the policy has no such fragment |
| ErasureNames.NamesDiffer | swift_patches/obj/bs_diskfile.py:3652-3680 | Different timestamps, indexes or marks have different names |
| ErasureNames.BadIndexes | swift_patches/obj/bs_diskfile.py:3629-3650 | A missing or negative index gets no name |
| ErasureReader.Reader.UpdateChecks | swift_patches/obj/bs_diskfile.py:3334-3344 | Exactly the complete fragments so far are checked, in order; the read is quarantined at the first corrupt one |
| ErasureReader.ReadArchive | swift_patches/obj/bs_diskfile.py:3288-3344 | How the archive is cut into chunks makes no difference |
| ErasureReader.ReadAndClose | swift_patches/obj/bs_diskfile.py:3288-3348 | A whole read and its close check every fragment and what is left over, in order, up to the first corrupt one, which quarantines it |
| ErasureReader.PiecesJoin | swift_patches/obj/bs_diskfile.py:3334-3348 | These pieces join to the archive, so every byte is checked once |
| ErasureReader.FragmentsAre | swift_patches/obj/bs_diskfile.py:3334-3344 | The fragments are the consecutive slices of the fragment size |
| ErasureReader.Reader.HandleCloseQuarantine | swift_patches/obj/bs_diskfile.py:3346-3348 | Closing checks what is left over |
| HashCache.NoLostInvalidation | swift_patches/obj/bs_diskfile.py:506-561 | However many processes run, an invalidation a stored hash may have missed is still listed |
| HashCache.StepOk | swift_patches/obj/bs_diskfile.py:1389-1466 | Every step of every process keeps that, the unlocked reads and the compare-and-write among them |
| HashCache.MergeCurrent | swift_patches/obj/bs_diskfile.py:506-544 | After consolidating, no stored hash has an invalidation it may have missed |
| HashRuns.MergeIs | swift_patches/obj/bs_diskfile.py:506-544 | Consolidating takes the hash of exactly the suffixes that are named, adds those that are new, and leaves the others |
| HashRuns.HashesAreComputed | swift_patches/obj/bs_diskfile.py:1389-1466 | In every run each hash in the file, and each that is returned, was in the file at the start or is what a computation of that same suffix gave, dated by its beginning |
| HashJobs.EverySuffixIsSettled | swift_patches/obj/bs_diskfile.py:1389-1466 | In what is returned each suffix asked for has kept its hash, has the one computed in this attempt, or is without one or missing because its hashing ended so; there is no other |
| HashJobs.AnswerWasStored | swift_patches/obj/bs_diskfile.py:1456-1466 | What is returned is what the file held at some moment |
| HashCache.Partition.ConsolidateHashes | swift_patches/obj/bs_diskfile.py:506-544 | The loop merges the lines, writes only if a suffix was among them, and clears the log |

## Left out

- BlueStore itself, RocksDB, mounting, growth and unmounting: the store is a map
  with an ordered listing, operations that land one at a time, and prefixes that
  survive.
- The Device as a class: its methods yield in the middle, so they are steps of a
  transition system; the engine's calls, which do not, are methods of classes.
- Integer widths: timestamps, offsets and sizes are natural numbers.
- Errors of `queue_transaction`, killed greenthreads, timeouts and unreadable
  JSON, which abort the protocols.
- Termination of `open`, `read_metadata` and `__get_hashes` under endless
  contention.
- Whether a cached suffix hash equals the directory's content: writers invalidate
  before they rename, so only that no invalidation is lost.
- Which acceptable fragment a preference picks: the source takes the last of a
  list made from a set.
- File names, xattrs and pickles as bytes; md5; `encode_timestamps`; quarantine,
  the auditor, replication locks, splice, fallocate, servers, the command line.
- The directory's listing order and `rmdir`: listings come in any order.
