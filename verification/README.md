# A model of the LFSX server's storage

LFSX is a Git LFS server. It keeps objects under their SHA-256 digest, once for all
repositories, on a volume or in a bucket, and it hands out file locks. This project
models the parts of it on which somebody's bytes, or somebody's lock, depend, and
proves what they promise.

- **Claim index** (`BucketKeys`, `BucketProtocol`, `BucketSafety`, `BucketTheorems`,
  `BucketCounts`):
  pushes, adoptions, both kinds of sweep and the backfill of any number of
  repositories over one bucket, one keyspace request at a time, each able to stop
  anywhere. A listing answers every key present throughout it and perhaps others.
  `BucketReads` says what a sweep has read before it deletes. `BucketSweeping` has the
  two kinds of sweep as loops with nobody beside them, and `BucketAlone` shows that the
  requests of a sweep that is alone come to the same.
- **Framed objects** (`Bytes`, `Sealing`, `Framing`, `Writer`, `Reading`,
  `CodecTheorems`, `Keyrings`): the container as a function of the payload, the
  writer that builds it from chunks, the reader that sniffs and streams it.
- **Uploads and reads** (`Ranges`, `Serving`, `Upload`): the sink, the limits, the
  byte range of a request. `Tampering`: sealed objects altered on the disk.
- **Local store, concurrently** (`Files`, `LocalProtocol`, `LocalSafety`,
  `LocalTheorems`, `Promotion`): a filesystem with hard links, and pushes, collections and the
  two migrations over it, one filesystem call at a time. The map from (repository,
  digest) to plaintext that the store refines is `LocalTheorems.Held`.
- **Local store, by itself** (`Accounting`, `Collecting`, `CollectingTheorems`,
  `Deduping`, `DedupingTheorems`): sweeping and deduplicating as loops over a walk,
  with what they report and what the disk gives back. `LocalAlone` shows that the
  concurrent programs, alone, do the same call by call.
- **Locks** (`LockProtocol`, `LockSafety`, `LockTheorems`, `LockAnswers`): creators and unlockers on
  any number of replicas over a directory or a bucket (conditional requests as in
  sections 13.1.1 and 13.1.2 of RFC 9110), with requests whose answer is lost.
- **Names** (`Names`, `Text`, `Strings`, `Namespaces`, `KeyNames`, `Surveying`,
  `CanonicalKeys`, `FoldProtocol`, `FoldTheorems`): how keys are spelled, what a sweep
  reads out of a listing, and folding a bucket to one spelling while several servers
  start at once.
- **Smaller parts**: `Pages`, `LookupBudget`, `Multipart`, `Caching`, over `Sorting`.

State machines come as a step function, an inductive invariant with a lemma per
program, and theorems over whole runs. Code that works in place is a class or a
method, proved against a function whose meaning the lemmas then state.

## What is assumed

- Compression, the cipher and the digest are functions known by their laws
  (`Sealing.Transforms.Lawful`, `LocalProtocol.World.Sound`): decompressing into a
  large enough buffer gives back what was compressed, opening under the same key,
  nonce and associated data gives back what was sealed, and no two payloads share a
  digest. `Sealing.LawsCanBeMet` shows the transforms' laws can be met. Of an altered
  frame the cipher is taken to give nothing (`Tampering.Guarded`), and for
  `Tampering.RefusedIsUnserved` buffers not to be overrun (`Reading.Fits`).
- Claim index: the two race rules of `BucketProtocol.Rules`, which the source accepts
  (server/src/storage/s3/collect.rs:41-55) and which
  `BucketTheorems.SafeExactlyUnderTheRules` proves to be exactly what safety takes; an
  object has one stored size; every writer is of the version modelled.
- Local store: staging names are drawn once; a repository's own sweep or promotion
  keeps off an object it is pushing; a file is never rewritten once it has a name.
- Locks: every write gets a version no other write had; a path goes by the id its hash gives it.
- Folding: while servers fold, nobody else writes to the bucket.

## Where the source and its words differ

- `delete` on S3 asks whether the key is there and then deletes it
  (server/src/storage/s3/keyspace/s3.rs:338-354), so two sweeps can both be told they
  removed it, and the claim that two reports never add up to more than was held
  (server/src/storage/s3/collect.rs:247-251) does not hold there.
  `BucketCounts.BothTakeTheCredit` is a run in which it fails, and
  `BucketCounts.ReportsExactlyWhen` says what it takes: a delete that reports to its
  remover only.
- A dry run is said not to promise space it cannot deliver
  (server/src/storage/sweep.rs:86-89). For an object with no shared entry and no other
  holder it promises the whole file while the real run reports nothing;
  `CollectingTheorems.DryPromisesExactlyWhen` gives the exact condition.
- Deduplication hashes files as they lie on disk (server/src/storage/dedupe.rs:171-188),
  so a real run refuses a compressed or sealed object that is not yet folded in, good
  as it is: `DedupingTheorems.FramedIsRefused`. One that is folded in already counts as
  shared, and a dry run refuses nothing.
- Promotion is said to keep the object where the repository expects it
  (server/src/storage/dedupe.rs:136-141); between its two calls the name is away.
  `Promotion.PromotionKeepsExactlyWhen` says what it takes for the object to be kept,
  and `Promotion.StoppingLoses` and `Promotion.SweepingLoses` are runs that lose it.
- Rotating keys is described as appending a line (server/src/storage/crypt.rs:17-20);
  writes use the first line, so a new key has to come first, as
  `Keyrings.RotationKeepsReading` states it.

## Model

| member | source | states |
|---|---|---|
| `BucketTheorems.MarkerImpliesContent` | server/src/storage/s3/collect.rs:64-261 | In every state of every run of pushes, adoptions, indexed and whole-bucket sweeps, backfills and aborts, a marker has its content, and under `.refs/.complete` every marker has its ref |
| `BucketTheorems.BytesGoLast` | server/src/storage/s3/collect.rs:86-97 | Shared bytes are deleted only by a real sweep, in a state where no repository holds a marker on them and no push is between its ref and its end |
| `BucketReads.AskedFirst` | server/src/storage/s3/collect.rs:129-187 | In any run, whoever races whom, a sweep by the index means to free bytes only after an answered read of the index that named no other repository |
| `BucketReads.AskedAgain` | server/src/storage/s3/collect.rs:86-97 | And any sweep stands at the delete only after another such read, made once its own claim was gone |
| `BucketReads.ListingIsWhatIsThere` | server/src/storage/s3/keyspace.rs:206-220 | At any moment of any run a listing under way may answer just what is there then; it owes no key deleted meanwhile |
| `BucketReads.NoneIsMissed` | server/src/storage/s3/collect.rs:103-127 | A marker of its own that is there throughout a listing, unretained and old enough, is among what the listing gives a sweep to drop |
| `BucketTheorems.MarkersGoByTheirOwner` | server/src/storage/s3/collect.rs:64-84 | A marker disappears only in a real sweep of its own repository, for an object that sweep was not told to retain |
| `BucketTheorems.CompleteForEver` | server/src/storage/s3/refs.rs:92-114 | Once set, the mark that the index is complete is there in every later state |
| `BucketTheorems.MarkIsLast` | server/src/storage/s3/refs.rs:92-114 | The mark appears only in an answered request of a real sweep that stands at the end of its backfill, when no marker lacks a ref |
| `BucketTheorems.MarkAfterFill` | server/src/storage/s3/refs.rs:92-114 | A sweep comes to that end only with every write of its backfill answered, each of them having put down the ref it was for |
| `BucketTheorems.PushLands` | server/src/storage/s3.rs:190-264 | A store or an adoption that reports success leaves its ref, its marker and the content |
| `BucketCounts.DryRunWritesNothing` | server/src/storage/s3/collect.rs:129-261 | In any run, whoever races whom, no step of a dry run changes the bucket or counts anything as removed |
| `BucketCounts.ReportsNeverExceed` | server/src/storage/s3/collect.rs:247-257 | Where a delete reports to its remover only, the bytes all sweeps have reported, added up, never exceed the content removed, in any run |
| `BucketCounts.ReportsExactlyWhen` | server/src/storage/s3/keyspace/s3.rs:338-354 | Reports never exceed what was removed, in all runs, if and only if deletes report to their remover only; where the key is asked for first, as here, some run exceeds it |
| `BucketCounts.BothTakeTheCredit` | server/src/storage/s3/keyspace/s3.rs:338-354 | That run: the sweeps of two repositories both report the bytes of one object, twice what was removed, under both race rules |
| `BucketSweeping.BucketStore.Sweep` | server/src/storage/s3/collect.rs:27-39 | A sweep with nobody beside it, by the index or by the whole bucket, leaves and reports what `BucketSweeping.EveryKeyIsSettled` and `BucketSweeping.WholeReportIsWhatGoes` say; a dry run leaves the bucket alone |
| `BucketSweeping.EveryKeyIsSettled` | server/src/storage/s3/collect.rs:129-261 | For every key: it goes if and only if it is the own marker, ref or listed size of a dropped object, or the bytes of one on which nobody else has a ref nor, where there is no index, a marker; what is added without an index are the refs of the remaining markers and the mark |
| `BucketSweeping.WholeReportIsWhatGoes` | server/src/storage/s3/collect.rs:162-184 | Every dropped object is counted, and the bytes reported with those still in the bucket are the bytes there were |
| `BucketSweeping.PromiseIsWhatIsUnheld` | server/src/storage/s3/collect.rs:152-160 | A dry run promises exactly the bytes of the dropped objects on which nobody else has a ref or, without the index, a marker |
| `BucketSweeping.IndexedRehearsalIsExact` | server/src/storage/s3/collect.rs:129-187 | By the index a dry run reports exactly what the real sweep reports |
| `BucketSweeping.WholeRehearsalIsExactWhen` | server/src/storage/s3/collect.rs:205-261 | By the whole bucket a dry run never promises less, and promises the same bytes if and only if no dropped object with bytes has another repository's ref without its marker |
| `BucketSweeping.IndexedSweepRefinesWhole` | server/src/storage/s3/collect.rs:129-261 | Over an index that misses no holder, asking it object by object leaves and reports what reading the whole bucket does |
| `BucketSweeping.BackfillServesAtOnce` | server/src/storage/s3/refs.rs:92-114 | The index a sweep has just built would have served that sweep as well |
| `BucketAlone.PushAlone` | server/src/storage/s3.rs:190-264 | A push that nobody comes between leaves the bucket with its ref, its marker, its size and the content, kept if it was there and uploaded if not; an adoption needs the client's upload only if the content is missing, and removes it |
| `BucketAlone.SweepAlone` | server/src/storage/s3/collect.rs:103-261 | Request by request, a sweep that nobody comes between drops exactly its own markers neither retained nor young and leaves and counts what the loops of `BucketSweeping` do |
| `BucketAlone.NeverStuck` | server/src/storage/s3/collect.rs:129-261 | Until it is over such a sweep always has a request it can make |
| `BucketAlone.RequestsRunOut` | server/src/storage/s3/collect.rs:129-261 | Answered or not, and whoever else does what, a push makes at most six requests, and a sweep that has listed at most nine for each object to drop and one for each ref to write |
| `BucketTheorems.SafeExactlyUnderTheRules` | server/src/storage/s3/collect.rs:41-55 | Marker-implies-content holds in every run if and only if both rules hold: nobody claims between a last index read and its delete, and no repository pushes what its own sweep is dropping; without either a losing run is exhibited |
| `BucketSafety.NobodyElse` | server/src/storage/s3/refs.rs:49-61 | When the index, or a whole listing, names no other holder and the own marker is gone, nobody holds or is claiming the object |
| `Writing.Writer.Push` | server/src/storage/codec.rs:140-154 | However the payload is chunked, what is written so far is the interior frames of what was pushed, and at most a frame is pending |
| `Writing.Writer.Finish` | server/src/storage/codec.rs:156-248 | The finished file is the container of the concatenated chunks: header, frames, index; it does not depend on the chunking |
| `Framing.FrameAt` | server/src/storage/codec.rs:211-237 | Frame i holds exactly the i-th stretch of the payload under number i, and exactly the final one carries the last flag |
| `Framing.CompressedExactlyWhen` | server/src/storage/codec.rs:211-237 | A frame is compressed if and only if that saves more than a twentieth of it, and never grows by more than the tag |
| `Reading.Open` | server/src/storage/codec.rs:270-345 | Sniffing, key lookup, index walk and their refusals, equal to the specification every statement on reading is about |
| `Reading.AcceptedIsBounded` | server/src/storage/codec.rs:253-345 | Of any bytes, whoever stored them, only those are accepted whose offsets ascend from the header end to exactly the index, with the index reaching exactly the end, the frame size in bounds and as many frames as the length needs |
| `Reading.StreamStaysInside` | server/src/storage/codec.rs:354-392 | Of anything accepted, a stream ends, reads only inside the frames, yields no empty item, never more than was asked for, and never less without an error unless the frames are over |
| `Reading.BadFrameIsRefused` | server/src/storage/codec.rs:394-411 | A frame the cipher refuses under its number, its last flag and its object ends the stream with Tampered, and one that does not decompress with its own error, nothing of it given out |
| `Tampering.RefusedIsUnserved` | server/src/storage/codec.rs:354-411 | Of any file accepted as sealed, no range that reaches a frame the cipher refuses is served, and the whole is not read back |
| `Tampering.ServedExactlyWhenIntact` | server/src/storage/codec.rs:354-411 | A sealed object with frames altered, swapped or cut in place is served over a range, with what was written, if and only if no frame the range touches was altered; otherwise it is refused as tampered with, and only true bytes are given out before |
| `Tampering.ReadExactlyWhenIntact` | server/src/storage/codec.rs:354-411 | It reads back whole if and only if no frame was altered |
| `CodecTheorems.OpensAsGenuine` | server/src/storage/codec.rs:270-345 | What the writer produced, under any level and key, is opened as exactly its own layout |
| `CodecTheorems.RoundTrip` | server/src/storage/codec.rs:140-411 | For every payload, level, key and in-bounds range, what was written opens, reports the payload length and streams exactly that range |
| `CodecTheorems.RecognisedExactlyWhen` | server/src/storage/codec.rs:189-209 | A written object is taken for raw bytes if and only if it has 2^32 frames or more, which the u32 frame count cannot hold |
| `Sealing.BoundToItsPlace` | server/src/storage/crypt.rs:202-225 | Associated data tell frames of any objects apart by number, last flag and digest |
| `Sealing.NoncesDiffer` | server/src/storage/crypt.rs:202-213 | Two frame numbers below 2^32 never give one nonce |
| `Serving.NoNonceRepeats` | server/src/storage/codec.rs:211-237 | Under one object key no two frames of an object are sealed with one nonce, each with its own number and flag |
| `Keyrings.Parse` | server/src/storage/crypt.rs:73-113 | A key source is accepted if and only if every line that says something is a key, no two share an id and there is one; the ring is then those keys in order |
| `Keyrings.KeyLine` | server/src/storage/crypt.rs:76-88 | A line that, trimmed, is 32 bytes in hex, in small letters or capitals, says that key |
| `Keyrings.NoKeyInIt` | server/src/storage/crypt.rs:76-88 | A line of any other length or with any other character says none |
| `Keyrings.RotationKeepsReading` | server/src/storage/crypt.rs:23-28 | With a new key put first, everything written under the old ring reads back, and new writes use and can be read under the new key |
| `Keyrings.WithoutItsKey` | server/src/storage/codec.rs:417-429 | An object sealed under a key that is not on the ring, or where there is no ring, is refused over any range, with the error for each |
| `Ranges.RangeMeans` | server/src/range.rs:9-53 | The three forms of a byte range (section 14.1.2 of RFC 9110) mean their slice for every number and size, or are unsatisfiable |
| `Ranges.WholeIsAskedFor` | server/src/range.rs:9-30 | No header, one in another unit, and several ranges ask for the whole object |
| `Serving.ServesWhatWasAsked` | server/src/range.rs:9-63 | Every slice the range parser returns is served as exactly that slice of the payload, stored as it is or framed |
| `Serving.Sink.Write` | server/src/storage/mod.rs:58-70 | A raw sink holds back until it can tell whether the bytes could be taken for a container; its state is a function of the bytes so far |
| `Serving.Sink.Finish` | server/src/storage/mod.rs:72-103 | What is left on disk depends only on the concatenated bytes: themselves, or a container where they collide or one is configured |
| `Serving.SinkReadsBack` | server/src/storage/mod.rs:298-317 | With nothing configured a payload reads back exactly, shorter than the magic or itself a container included, if and only if it does not collide or its frames can be counted |
| `Upload.StreamTo` | server/src/storage/mod.rs:427-480 | A transfer goes through if and only if nothing arrives, or the bytes are within the largest object and, with what the repository uses, within its quota; it is refused at the first chunk that crosses a line, with the line it crosses; digest, count and disk are those of the concatenation |
| `Upload.Stage` | server/src/storage/mod.rs:324-396 | An upload is staged if and only if declared size, both limits, length and digest all agree, with the file the payload calls for; each refusal names what disagrees |
| `LocalTheorems.EveryPathIsRight` | server/src/storage/dedupe.rs:70-147 | Between any two filesystem calls of any interleaving of pushes, collections, adoptions, promotions and compressions, every object path and every shared entry reads back as bytes that hash to its name |
| `LocalTheorems.ReadsStayTheSame` | server/src/storage/rewrite.rs:76-143 | What a repository reads of an object is the same at any two moments it holds it, migrations included |
| `LocalTheorems.ReadsChangeOnlyByTheirOwner` | server/src/storage/mod.rs:482-537 | What a repository reads of an object appears or disappears only in a step of its own process on that object, never in anybody else's, and never turns into something else |
| `LocalTheorems.OnlyTheOwnerTakes` | server/src/storage/sweep.rs:90-135 | A repository loses its name for an object only to its own sweep, or to its own promotion for the moment the name is away |
| `LocalTheorems.PushLands` | server/src/storage/mod.rs:487-537 | A push that reports success leaves its path reading back as exactly the bytes pushed, even if the shared entry vanished between publish and link |
| `LocalAlone.CollectAlone` | server/src/storage/sweep.rs:90-135 | Call by call, collecting an object with nobody beside it leaves what the sequential sweep leaves of it |
| `LocalAlone.AdoptAlone` | server/src/storage/dedupe.rs:70-106 | Likewise adopting a shared copy and the sequential deduplication |
| `LocalAlone.PromoteAlone` | server/src/storage/dedupe.rs:111-147 | And promoting an own copy |
| `LocalAlone.PushAlone` | server/src/storage/mod.rs:487-537 | A push alone links to what is shared, or shares what it staged, leaves a name it had as it was, and leaves no staging name |
| `LocalAlone.RestoreAlone` | server/src/storage/mod.rs:510-537 | So does one whose shared entry was collected between its finding it and linking to it |
| `LocalAlone.CompressAlone` | server/src/storage/rewrite.rs:76-143 | Compressing alone replaces an object under its own name, and under the shared one if both led to one file, if and only if it lies there as it is, is what its name says and comes out smaller |
| `LocalAlone.CallsRunOut` | server/src/storage/mod.rs:482-537 | Whatever the others do, a process can always make its next call and is over within eight |
| `Promotion.PromotionKeepsExactlyWhen` | server/src/storage/dedupe.rs:111-147 | In every run what a repository holds and does not sweep is held or one link from back, if and only if promotions are let finish and no sweep removes the shared entry of an object whose promotion is under way |
| `Promotion.PromotionPutsBack` | server/src/storage/dedupe.rs:135-141 | Under those rules a promotion that has the name away can go on, and its next call puts the object back, readable |
| `Promotion.StoppingLoses` | server/src/storage/dedupe.rs:135-141 | Without the first rule a run loses the name with no sweep in it at all |
| `Promotion.SweepingLoses` | server/src/storage/sweep.rs:110-134 | Without the second another repository's sweep of its own copy leaves nothing of an object nobody asked to drop |
| `Collecting.LocalStore.Collect` | server/src/storage/sweep.rs:90-162 | Collecting one object, really or as a rehearsal, leaves the store and report the specification gives |
| `Collecting.LocalStore.Sweep` | server/src/storage/sweep.rs:34-83 | A sweep over whatever the walk found leaves the specified store and report; a dry run leaves the store alone |
| `CollectingTheorems.SweepLeaves` | server/src/storage/sweep.rs:34-135 | Exactly the droppable names of the swept repository go, and a shared entry exactly when no other name leads to its bytes |
| `CollectingTheorems.SweepSpares` | server/src/storage/sweep.rs:34-83 | Retained objects, those in grace and every other repository's survive in the same bytes, and the shared entry stays with them |
| `CollectingTheorems.SweepCounts` | server/src/storage/sweep.rs:34-83 | Run or rehearsed, swept and spared are the numbers of found and unretained objects as old as the grace period, or younger |
| `CollectingTheorems.ReportIsExactWhen` | server/src/storage/sweep.rs:84-135 | Reported bytes never exceed the drop in bytes counted once per inode, and equal it if and only if nothing dropped was a non-empty file under one name only |
| `CollectingTheorems.SweepShows` | server/src/storage/sweep.rs:258-284 | Where everything dropped is folded into the shared store, the report equals the drop in the unique-inode measure over repository paths |
| `CollectingTheorems.DryPromisesExactlyWhen` | server/src/storage/sweep.rs:98-135 | A rehearsal promises for one object what collecting it reports if and only if it is folded, or links and lengths happen to agree in the cases listed |
| `CollectingTheorems.DryRunForetells` | server/src/storage/sweep.rs:34-83 | Run and rehearsal always agree on what is swept and what is spared, and on bytes if every dropped object is foretold |
| `Deduping.Dedupe` | server/src/storage/dedupe.rs:30-147 | Deduplicating one repository leaves the specified store and report, by link, rename and rename back; a dry run leaves the store alone |
| `DedupingTheorems.EachForItself` | server/src/storage/dedupe.rs:40-60 | Each object found is treated as if it were alone, and no name of another object moves |
| `DedupingTheorems.NamesMoveToRightBytes` | server/src/storage/dedupe.rs:70-106 | A name leads where it led, or to a file that hashes to the object: a corrupt shared copy is never spread |
| `DedupingTheorems.ReadsSurviveExactlyWhen` | server/src/storage/dedupe.rs:65-106 | An object reads back as before if and only if it is not one that gets linked to a shared copy which is read as something else |
| `DedupingTheorems.UnframedReadsSurvive` | server/src/storage/dedupe.rs:65-106 | In particular every object reads as before whose shared copy, if there is one, is stored as it is |
| `DedupingTheorems.FramedIsRefused` | server/src/storage/dedupe.rs:171-188 | An object not yet folded whose deciding file is a framed copy of it is refused, good as it is, and stays unfolded |
| `DedupingTheorems.EmptyObjectIsRefused` | server/src/storage/dedupe.rs:171-188 | One such input: a framed empty object held by one repository reads right, a dry run would adopt it, and the real run refuses it |
| `DedupingTheorems.FoldedAfterwards` | server/src/storage/dedupe.rs:40-63 | Of the objects found exactly those not refused are folded afterwards |
| `DedupingTheorems.EveryObjectIsCounted` | server/src/storage/dedupe.rs:14-63 | Every object found is counted under exactly one heading, and run and rehearsal differ only by what is refused |
| `DedupingTheorems.DedupeFrees` | server/src/storage/dedupe.rs:90-106 | The disk gives up exactly the replaced copies that had no other name |
| `DedupingTheorems.ReclaimedIsFreed` | server/src/storage/dedupe.rs:101-103 | Reclaimed bytes equal the drop on disk when each replaced copy was a file of its own holding the same object |
| `DedupingTheorems.SecondRunFindsNothing` | server/src/storage/dedupe.rs:149-163 | A second run changes nothing, reclaims nothing, and finds everything shared but what was refused the first time |
| `LockTheorems.GrantsAreApart` | server/src/locks.rs:159-260 | Over any number of replicas, between two grants of one path the very version the first wrote was removed |
| `LockAnswers.YesIsAGrant` | server/src/locks.rs:159-237 | In any step of anybody a create is told it has the lock if and only if that step writes its lock where there was none and grants it; nothing else grants anything |
| `LockAnswers.AnswersAreApart` | server/src/locks.rs:159-260 | So between two creates of one path that are told they have it, a request removed the very version the first was told of |
| `LockAnswers.UnlockAnswers` | server/src/routes/locks.rs:88-129 | An unlock is told it opened the lock if and only if its request removed what it had read, and was answered |
| `LockAnswers.AloneItIsDecided` | server/src/locks.rs:159-237 | A create nobody comes between gets the lock if and only if the store arbitrates and either there was none and room for one, or the one there can be read and was left longer than allowed; otherwise nothing changes |
| `LockAnswers.AloneItOpens` | server/src/routes/locks.rs:88-129 | An unlock nobody comes between opens what can be read and is its actor's by id, or by name where the lock names no id, or is forced by an admin; otherwise nothing changes |
| `LockAnswers.TakenUpExactlyWhen` | server/src/locks.rs:159-169 | A create is taken up if and only if its path has one to 4096 bytes, under the id of the path and with its owner's id |
| `LockAnswers.RequestsRunOut` | server/src/locks.rs:159-260 | Answered or not, a create ends within eight requests and an unlock within three, and waits at its gate and nowhere else |
| `LockTheorems.GrantsStand` | server/src/locks.rs:239-260 | A granted lock is in the store under the version it was granted until that version is removed |
| `LockTheorems.RemovalsAreEntitled` | server/src/routes/locks.rs:88-129 | Whatever is removed is the version that was read, and was stale to its taker, its unlocker's own, or forced by an admin |
| `LockTheorems.SafeExactlyWhenOrdered` | server/src/locks.rs:102-115 | Locks are safe in every run if and only if deletes are conditional or one process has the directory; two processes over one directory discard a fresh lock in a run exhibited |
| `LockSafety.CreatePreserves` | server/src/locks.rs:159-237 | Every request of a create, answered, unanswered or landed unheard, keeps the invariant |
| `LockSafety.UnlockPreserves` | server/src/locks.rs:411-431 | So does every request of an unlock |
| `Namespaces.StoredNamesDiffer` | server/src/namespace.rs:14-45 | Two admitted namespaces share a stored name only if forge, organisation and repository agree up to case |
| `Namespaces.StoredIsFileable` | server/src/namespace.rs:95-114 | What an admitted namespace is filed under is two whole lower-case segments that no dot-directory is mistaken for |
| `Namespaces.LetInExactlyWhen` | server/src/namespace.rs:95-114 | An organisation or a repository is let in if and only if it is one to 100 letters, digits, dashes, underscores and dots, no dot first; a forge if and only if it is one to 32 small letters, digits and dashes, no dash first, and neither name that is taken |
| `Strings.LowerMeans` | server/src/namespace.rs:16-29 | Lower case is that of the twenty-six letters and touches nothing else |
| `KeyNames.MarkersApart` | server/src/storage/s3.rs:83-94 | A marker key shared by two admitted namespaces means one object and one namespace up to case |
| `KeyNames.SplitSpelled` | server/src/storage/s3.rs:63-94 | Every key reads back segment by segment as what it was spelled from |
| `KeyNames.SpelledApart` | server/src/storage/s3/sizes.rs:26-32 | Content, marker, ref, size, incoming and lock keys and the mark are pairwise disjoint and each injective |
| `KeyNames.MarkersHaveRefs` | server/src/storage/s3/refs.rs:68-82 | Of all keys exactly the markers have a ref, and it is the one their push wrote |
| `Surveying.Survey.File` | server/src/storage/s3/collect.rs:284-334 | One line of a listing is filed as the specification says |
| `Surveying.FiledByKind` | server/src/storage/s3/collect.rs:273-339 | A key is filed by what it is, never by what it looks like |
| `Surveying.SurveyIsExact` | server/src/storage/s3/collect.rs:264-342 | A survey of any listing finds exactly the own markers, what any other repository claims, the own sizes and the content sizes |
| `Surveying.Droppable` | server/src/storage/s3/collect.rs:103-127 | Dropped are exactly the own markers neither retained nor young, an undated one being young, and both are counted |
| `CanonicalKeys.CanonicalTwice` | server/src/storage/canonical.rs:13-33 | Canonicalisation is idempotent |
| `CanonicalKeys.ProperIsCanonical` | server/src/storage/canonical.rs:13-33 | Every key a server writes is canonical already |
| `CanonicalKeys.LocksFold` | server/src/storage/canonical.rs:13-33 | Of a lock's key the organisation and the repository are put in lower case and nothing else |
| `CanonicalKeys.RefsFold` | server/src/storage/canonical.rs:13-33 | So of a ref that is not the mark |
| `CanonicalKeys.MarkersFold` | server/src/storage/canonical.rs:13-33 | So of any key of three segments or more outside the dot-directories |
| `CanonicalKeys.LeftAlone` | server/src/storage/canonical.rs:13-33 | Any other key is left as it is |
| `CanonicalKeys.RefsFoldWithMarkers` | server/src/storage/s3/refs.rs:68-82 | Folding a marker's ref and taking the ref of its fold agree if and only if the marker lies outside the dot-directories, among the locks, or has nothing to fold |
| `FoldTheorems.CanonicalKeysStand` | server/src/storage/canonical.rs:48-58 | A key already canonical keeps its body through any moves, crashes and reruns |
| `FoldTheorems.NothingIsLost` | server/src/storage/canonical.rs:48-58 | At every step each first key is under its own name or its canonical one |
| `FoldTheorems.DoneMeansFolded` | server/src/storage/canonical.rs:35-67 | With the done mark set the keys are the mark and the canonical image of the first ones, each with a body one of its spellings had, and nothing is left to move |
| `FoldTheorems.EndedMeansDone` | server/src/storage/canonical.rs:35-67 | A server that has ended well, whatever the others did, leaves the done mark set |
| `FoldTheorems.LeftAloneItEnds` | server/src/storage/canonical.rs:35-67 | Over any bucket a server can start and, its requests answered, get to the end |
| `FoldTheorems.FailureIsTheEnd` | server/src/storage/canonical.rs:48-65 | A request that is not answered is the last of its server, which starts over when it is started again |
| `FoldTheorems.RefsSurvive` | server/src/storage/canonical.rs:35-67 | An index that missed no marker misses none once the bucket is folded |
| `Pages.Paginate` | server/src/page.rs:16-48 | A page is the stretch of the list sorted by id that follows the cursor, up to the clamped limit, with a cursor only if there is more |
| `Pages.LessIsAlphabetical` | server/src/page.rs:17 | Ids are in alphabetical order |
| `Pages.NothingTwice` | server/src/page.rs:16-48 | Over any walk, whatever changes between pages, ids strictly increase |
| `Pages.NothingMissed` | server/src/page.rs:16-48 | A finished walk returned every lock that was there throughout |
| `Pages.FixedListEnds` | server/src/page.rs:16-48 | On a fixed list every walk, with any limits, ends: it has at most one page more than there are locks |
| `Pages.FixedListIsWalked` | server/src/page.rs:16-48 | And its pages concatenate to the sorted list |
| `LookupBudget.Budget.Spend` | server/src/auth/budget.rs:79-99 | A spend refills, draws one if there is one, and otherwise answers the wait |
| `LookupBudget.WindowIsBounded` | server/src/auth/budget.rs:79-99 | Grants in any window of T seconds are at most capacity + capacity * T / 60 |
| `LookupBudget.WhatIsThereIsGranted` | server/src/auth/budget.rs:79-99 | As many attempts as a budget has whole lookups left are all let through, however close together |
| `LookupBudget.RefusedUntil` | server/src/auth/budget.rs:79-99 | A refused caller is let through exactly from the moment enough has been earned |
| `LookupBudget.WaitingIsEnough` | server/src/auth/budget.rs:92-99 | Waiting the seconds answered, nobody else spending, always succeeds |
| `LookupBudget.WaitingLessIsNot` | server/src/auth/budget.rs:92-99 | Waiting a second less never does, unless the answer is one second |
| `Multipart.Parts` | server/src/storage/s3/multipart.rs:107-165 | The parts, numbered from one, put together are the object; all but the last are full and none is empty; refused if and only if the count exceeds a u16 |
| `Multipart.PartsSuffice` | server/src/storage/s3/multipart.rs:24-33 | The part size chosen never needs more than 10,000 parts |
| `Multipart.PartsAreNoLarger` | server/src/storage/s3/multipart.rs:24-33 | And is the usual one, or the smallest that does not |
| `Multipart.PutInBlocks` | server/src/storage/s3/keyspace/azure.rs:272-320 | The blocks in list order are the object; refused if and only if there are more than 50,000 |
| `Multipart.RefusedExactlyWhen` | server/src/storage/s3/keyspace/azure.rs:44-46 | An object is refused if and only if it is longer than 50,000 blocks of 4000 MiB |
| `Multipart.BlocksAreNoLarger` | server/src/storage/s3/keyspace/azure.rs:44-46 | The block size is the usual one, the smallest that needs no more than 50,000 blocks, or the largest there is |
| `Multipart.BlockIdsDiffer` | server/src/storage/s3/keyspace/azure.rs:54-56 | The block ids of one upload have one length and are pairwise different |
| `Caching.Cache.Evict` | server/src/storage/cache.rs:284-327 | Eviction stops as soon as the rest fits, and not before; what is left is a suffix of the recency order and what could not be removed; checks of what went are forgotten |
| `Caching.Cache.Fill` | server/src/storage/cache.rs:208-265 | A body of any other length than announced leaves the cache alone; a whole one is added as the latest use and the cache is evicted |
| `Caching.EvictionIsByRecency` | server/src/storage/cache.rs:281-327 | Nothing that went was used later than anything kept that could be removed |
| `Caching.NoneGoesWithoutNeed` | server/src/storage/cache.rs:284-327 | If anything went, one of the files that went would not have fitted with what was kept |
| `Caching.LatestSurvivesExactlyWhen` | server/src/storage/cache.rs:284-327 | The latest entry, ties settled by the order of the listing, survives its own eviction if and only if it fits beside what cannot be removed |
| `Caching.LatestSurvives` | server/src/storage/cache.rs:94-96 | With every removal working, if and only if it is no larger than the cache |
| `Caching.KeptFits` | server/src/storage/cache.rs:284-327 | The total kept is at most the ceiling, unless nothing is left but what cannot be removed |

## Left out

- HTTP routing, request bodies, timeouts, tracing, TLS, the forge clients, settings, the dashboard, the command line and deployment: plumbing around what is modelled.
- The algorithms of SHA-256, BLAKE3, zstd, ChaCha20-Poly1305 and base64, and the keys derived per object: only their laws are used. The header and the stored bit are not authenticated, and nothing is claimed of them under tampering.
- The wire formats of S3, Azure and GCS, retries and startup probes: the keyspace is a map with put, conditional put, versioned read, conditional delete, delete and list.
- Non-Unix branches and the copy that stands in for a hard link where there are none.
- `fold_local`: the directory fold makes no promise of resuming with several spellings (server/src/storage/canonical.rs:116-117).
- Lock capacity as a hard bound under races, and the cache's byte counter as the disk total: the source does not promise them.
- Reclaiming stale uploads: it appears only as a step that may remove an incoming key at any time.
- A listing that fails in the sequential sweep of a bucket: in the request-level machine it drops nothing.
- I/O errors of the sequential loops: the walk, the ages and the list of other repositories are parameters, and every call on the filesystem succeeds there; stops and failures are in the concurrent machine.
- Requests that take effect after their caller has gone: modelled for lock writes, for folding and for the refs of an abandoned backfill, not for the other writes to a bucket or for filesystem calls.
- The cache's digests, its claims and its slots for filling.
- Listing and verifying locks over HTTP: a filter and a partition of the pages modelled.
- Writing.Writer.Finish: the header goes into a stretch kept apart from the frames rather than by seeking back in one file.
- CodecTheorems.RoundTrip: asks for fewer than 2^32 frames, which is exactly when a written object is recognised (`CodecTheorems.RecognisedExactlyWhen`).
- LookupBudget.Budget.Spend: amounts are real numbers, so the rounding of floating point is not modelled.
- Multipart.PutInBlocks: ids are shown before base64, which keeps lengths equal and ids apart.
