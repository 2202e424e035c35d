# A verified model of the image cache

image-cache keeps, on every node of a cluster, one directory of image archives
per `ImageCache` resource. An agent fills and repairs the directories and tells
about them in node labels; a one-shot command fills one before there is a
cluster; a service imports the archives at boot. This project models the parts
where that is hard to get right, and proves what they promise.

`dafny verify dfyconfig.toml` checks the whole of it.

## How it is laid out

| file | what it models |
|---|---|
| `Basics.dfy`, `Names.dfy` | shared types; the names of temporaries, resources and files |
| `Protocol.dfy` | the store as a state machine over system calls: any number of extractions, collectors and adopters interleaved at every `mkdir`, `open`, `flock`, `stat`, write, `unlink`, `rmdir`, `rename` and `close`, each of which may fail, and any process may die between two of them. `RemoveAll` unlinks in any order and goes by name. Directories record which extraction created them |
| `ProtocolInvariant.dfy`, `ProtocolSafety.dfy`, `ProtocolProgress.dfy`, `ProtocolSpare.dfy` | the invariant every step keeps, what follows for every run, that an extraction left alone gets to its end, and what an adoption can do to an image that has a file under the name it writes to |
| `ProtocolRemoval.dfy` | that a collector, a GC, an extraction that fails and an adoption get to their ends too |
| `DigestHistory.dfy` | the digest memory against the clock: checks that read piece by piece while files are written, renamed, relinked and their inodes reused |
| `Layout.dfy`, `Disk.dfy` | what is on the disk, what `State` reads off it, and the filesystem calls as methods that may fail |
| `Sums.dfy`, `Store.dfy` | `sums` and `Store` as classes: the content check, extraction, adoption, collection |
| `Image.dfy`, `Fill.dfy` | layers to one stream to a flat directory |
| `Labels.dfy` | the status labels and the merge patch |
| `Pass.dfy` | what one pass makes of each resource, and the laws of passes and runs of passes |
| `PassLoops.dfy`, `Reconciler.dfy` | the reconciler as a class, and its two loops against that specification |
| `Watcher.dfy`, `Command.dfy`, `Preload.dfy` | the event loop and the watched paths; the command's sequence; the boot service's loop and globs |

The store is modelled twice on purpose. The protocol has every interleaving and
every crash, for names, locks and whole files. The classes run one call after the
other, with the errors, the records, the digests and the content rules. A disk
call of the classes that fails adds to `faults`: a contract that assumes an
unchanged `faults` says what happens when nothing fails, and one that does not
says what holds whatever fails.

## What it takes for granted

- A crash is the death of a process, not a power loss: nothing is synced.
- `MkdirTemp` never draws a name twice: the lock is on the inode, the check after
  it is by name. An inode of the protocol stands for the directory itself, so its
  number is not drawn twice either; the digest history does reuse inodes of files.
- One writer per resource name at a time, and no swap between GC's reading of a
  sentinel and its `RemoveAll`: the protocol makes these two one step. An
  adoption counts as a writer of its name.
- ctime is set to the filesystem's clock at every change of an inode, that clock
  is behind `time.Now` by less than a tick, and neither goes back. A directory
  is not moved away between a check's stat and its open and then moved back with
  the old file in it, as that stamps no file: `DigestHistory.DetourFails` shows
  that this is needed. Any other move of a directory is allowed.
- The digests an extraction computes are of the bytes found when they are
  remembered. A write in the very tick of such a file is not seen, as
  `DigestHistory.SameTickIsUnseen` shows and the design says.
- Resource names are unique DNS-1123 names of at most 63 characters.
- The digest is any function of the bytes. Where a failing history needs two
  contents with different digests, the lemma asks for two such contents.
- The pass that follows another is for the same resources, which is so when no
  resource selects by a status label, and only then sure
  (`Passes.DesiredStaysExactly`), and when nobody changes the other labels.
- The read of the node is up to date, other writers leave the statuses alone, and
  a patch that succeeds answers with the object as the server then has it.

## Where the code does less than its comments or its design say

- Adopt "leaves the content as it is" (`agent/internal/cache/store.go:176-182`),
  but the name it writes to, `.image-cache-agent.json.tmp`, may be a file of the
  image. That file is lost, and the directory is labelled synced and is
  incomplete: `Layout.AdoptCanBreak`. `Layout.AdoptKeepsComplete`,
  `Passes.SyncedIsTrue` and `Passes.OnePassConverges` carry the exact condition.
  While the adoption is under way the check by names even finds the name, and
  answers Complete over a file that is not the image's: `ProtocolSpare.SpareRun`,
  and exactly when: `ProtocolSpare.WholeExactly`. The name is hidden, so the boot
  service never imports that file: `Preloading.ArchivesAreWhole`.
- A seeded directory is to stay until its source resolves
  (`agent/DESIGN.md:363-383`), and one whose sentinel cannot be read is to stay
  (`agent/DESIGN.md:119-120`). When `State` fails the resource still reaches
  `sync`, so a sentinel that can be looked at and not read is replaced with no
  check: `Passes.UnreadableIsReplaced`, and exactly when: `Passes.UnresolvedExactly`.
  The same goes for a seeded directory that is complete and has a file that fails
  to be read: State then says Incomplete (`agent/internal/cache/content.go:137-142`),
  and the directory is replaced unresolved: `Passes.SeenExactly`.
- The merge patch is to keep every label the agent did not touch
  (`agent/internal/controller/node_reconciler.go:199-201`). An empty label map is
  left out of the object, so removing the last labels the agent knows of sends
  `labels: null`, which removes every label: `NodeLabels.PatchedOthers` says
  exactly when others are lost, `NodeLabels.PatchCanLose` gives a case.
- `patchLabels` updates the node even when the patch failed. The second patch of
  the pass then leaves out the statuses that did not change in between, and the
  server keeps the old ones until the next pass, which the returned error brings,
  the statuses of resources that are gone included:
  `NodeLabels.AfterAFailedPatch`, and a case in `NodeLabels.FailedPatchCanLie`.
- The first glob of the boot service asks for a name and not for a file
  (`rpm/sources/containerd-image-preload.sh:40`): the directory of a resource whose
  name ends in `.tar` is handed to the import as if it were an archive,
  `Preloading.DirectoryIsHanded`, and exactly such ones:
  `Preloading.FlatReachesResources`. What the import makes of a directory is not
  part of this model.
- The window protects against ticks of up to the window and one instant, no more:
  `DigestHistory.SoundExactly`.
- A sweep for one resource can reach another's unlocked temporary:
  `Names.SweepReachesAnother`.

The lemmas whose names end in `Exactly` or begin with `Filled` say what the
specification functions mean on literal entries, kinds, names and values, without
the predicates the other statements are written with.

An image may hold entries under the sentinel's name any number of times, and
directories without a name: they are skipped before the checks for duplicates and
for names, and `Filling.PublishableExactly` says so.

## Model

| member | source | states |
|---|---|---|
| ProtocolSafety.TemporaryIsSafe | agent/internal/cache/store.go:481-535 | For any writers, collectors and adopters, interleaved at every system call and dying anywhere: from the return of createTemporary to the swap, a temporary is at its name, locked, and exactly as its writer left it (empty at first), over every run of the other processes |
| ProtocolSafety.GivesUpAfterThreeLosses | agent/internal/cache/store.go:484-517 | createTemporary gives up for loss only after three different directories it made were each removed by a GC or a sweep |
| ProtocolSafety.CreatedEmpty | agent/internal/cache/store.go:511-511 | What createTemporary returns is there, locked by its writer, and empty |
| ProtocolSafety.HeldRun | agent/internal/cache/store.go:229-232 | No run of the other processes moves or changes a temporary that its writer holds (the induction behind TemporaryIsSafe) |
| ProtocolSafety.CompleteMeansOneExtraction | agent/internal/cache/store.go:222-229 | At every moment of every run, crashes, half-done removals and half-done adoptions included, when State answers Complete for a directory the store wrote, its files are those of one single extraction of that resource, of an image with a file and without duplicates, with their bytes, and no others; all of them, if and only if no adoption has come to it or no file of the image has the name Adopt writes to |
| ProtocolSafety.ReadersSeeWholeFiles | rpm/sources/containerd-image-preload.sh:37-46 | At every moment of every run, each file of a directory the store wrote under a resource's name is whole and one extraction's, but for the one an adoption writes, and its sentinel is never torn |
| ProtocolSafety.AnswersExactly | agent/internal/cache/store.go:109-154 | When the protocol's State answers Absent and Complete, spelled out |
| ProtocolSafety.RenameCompletes | agent/internal/cache/store.go:361-369 | The swap's rename takes the resource from Absent to Complete in one step, with the files and the sentinel of its extraction |
| ProtocolSafety.OnlyThreeChangeAResource | agent/internal/cache/store.go:343-369 | In every run a step that changes what is at a resource's name is an extraction of it whose replacement and sentinel are whole in the temporary, a GC that has looked at this very directory, which no other writer owns (or at one it took the place of, and this one is empty), or an adoption of it, which changes the owner and may take the place of the file with the name it writes to |
| ProtocolSafety.AdoptionIsAtomic | agent/internal/cache/store.go:176-207 | Over any run in which nobody swaps or drops this directory, whatever else goes on and wherever adoptions die, the directory stays, its sentinel is the old one or the same listing under the agent's name, never a torn one, and every file stays, but for one with the name Adopt writes to |
| ProtocolSpare.WholeExactly | agent/internal/cache/store.go:193-199 | Over every run: each directory of an image that State calls Complete holds all that its extraction wrote, if and only if no file of the image has the name Adopt writes to |
| ProtocolSpare.SpareRun | agent/internal/cache/store.go:193-199 | For every image with such a file, a run of one extraction and one adoption in which State answers Complete while that file is torn and not the image's |
| ProtocolSafety.LateCollectorIsHarmless | agent/internal/cache/store.go:539-556 | A collector that opened the temporary before the swap and locks it after removes by name, so it removes nothing |
| ProtocolProgress.LeftAloneItCompletes | agent/internal/cache/store.go:251-371 | From any state of any run, an extraction whose temporary was just created, of an image without duplicates over something it may replace, has a run of its own to its end: the resource is then Complete with exactly its files and sentinel, and no other resource is touched |
| ProtocolProgress.StartedItCompletes | agent/internal/cache/store.go:236-372 | The same from its first call on, the creation of the temporary included |
| ProtocolRemoval.LeftoverIsRemoved | agent/internal/cache/store.go:537-556 | From any state of any run, a collector that comes by a temporary nobody holds has a run of its own after which that name is gone, and every other name, directory, lock and process is as it was |
| ProtocolRemoval.OrphanIsRemoved | agent/internal/cache/store.go:558-631 | From any state of any run, a GC that comes by a directory with no sentinel, or with one of the agent's, and that no resource keeps, has such a run for that directory |
| ProtocolRemoval.FailureCleansUp | agent/internal/cache/store.go:236-247 | From any state of any run, an extraction at work one of whose calls fails has a run of its own after which its temporary is gone and its lock closed, and nothing else is touched |
| ProtocolRemoval.AdoptionCompletes | agent/internal/cache/store.go:183-207 | An adoption that is left alone ends with the agent as owner, the listing as it was, and no file gone but one with the name it writes to |
| ProtocolRemoval.ThreeLosses | agent/internal/cache/store.go:484-517 | From any cache path there is a run in which createTemporary gives up, after a collector removed each of the three directories it had made |
| ProtocolSafety.SeededStays | agent/internal/cache/store.go:558-579 | Over any run in which no extraction and no adoption of a resource takes a step, a directory under its name whose sentinel names another writer stays exactly as it is |
| ProtocolSafety.MayDie | agent/internal/cache/store.go:229-232 | Any process at work may die at any step: its lock goes with it, and nothing else changes |
| ProtocolSafety.StepKeeps | agent/internal/cache/store.go:236-372 | Every step of every process keeps the protocol's invariant: names, locks, the claim of one writer per resource, published directories, and what each process relies on where it is |
| ProtocolSafety.RunKeeps | agent/internal/cache/store.go:236-372 | The invariant holds in every state a run reaches |
| ProtocolInvariant.InitKeeps | agent/internal/cache/store.go:222-235 | The invariant holds in any cache path nobody is working in, leftover temporaries and foreign directories included |
| ProtocolInvariant.MkdirKeeps | agent/internal/cache/store.go:487-492 | Creating a temporary keeps the invariant |
| ProtocolInvariant.RmdirKeeps | agent/internal/cache/store.go:361-364 | Removing a directory by its name keeps the invariant, whoever removes it and whatever is at the name by then |
| ProtocolInvariant.UnlinkKeeps | agent/internal/cache/store.go:361-364 | Unlinking any child, in any order, keeps the invariant |
| ProtocolInvariant.RenameKeeps | agent/internal/cache/store.go:366-369 | The swap keeps the invariant |
| ProtocolInvariant.WriteKeeps | agent/internal/cache/store.go:308-356 | Creating, writing and closing the files and the sentinel keeps the invariant |
| ProtocolInvariant.AdoptKeeps | agent/internal/cache/store.go:183-207 | Every step of Adopt keeps the invariant |
| ProtocolInvariant.SpawnKeeps | agent/internal/cache/store.go:227-228 | Starting a process keeps the invariant, given one writer per resource name at a time |
| Names.RecordedNamesPass | agent/internal/cache/store.go:297-304 | Every base name Extract accepts is a file name the content check accepts |
| Names.BaseOf | agent/internal/cache/store.go:293-297 | An entry lands under its own file name, whatever directory its path carries, and with none |
| Names.BaseTrims | agent/internal/cache/store.go:293-301 | Trailing slashes do not matter, and a path that is empty or only a slash names no file |
| Names.NamesExactly | agent/internal/cache/store.go:437-441 | The rules for file names and temporaries and the store's own names, spelled out |
| Names.TemporaryNames | agent/internal/cache/store.go:437-441 | Every temporary's name satisfies IsTemporary |
| Names.ResourceNames | agent/internal/cache/store.go:88-90 | No DNS-1123 resource name is a temporary's, hidden, lost+found or the sentinel's, and each can be looked up under the cache path |
| Names.TemporariesApart | agent/internal/cache/store.go:487-487 | Temporaries of two resources never share a name |
| Names.SweepReaches | agent/internal/cache/store.go:455-459 | A sweep for n reaches a temporary of m if and only if m is n or m begins with n and the temporary mark |
| Names.SweepReachesAnother | agent/internal/cache/store.go:455-459 | Such an m exists: a sweep for a reaches the temporaries of a.tmp-b, which is a resource name |
| DigestHistory.TrustedIsFresh | agent/internal/cache/content.go:49-99 | Over every history of writes, links, renames of files and of directories, inode reuse, clock ticks, stats and piecewise reads: a digest a check took and trusts is the digest of the bytes the path leads to now, when a tick is at most the window and one instant and no directory is moved away between a check's stat and its open and moved back with the old file |
| DigestHistory.LongTickFails | agent/internal/cache/content.go:47-49 | A concrete history in which a tick one instant longer makes the memory trust a stale digest |
| DigestHistory.SoundExactly | agent/internal/cache/content.go:47-69 | The memory is sound over all such histories if and only if the tick is at most the window and one instant |
| ContentCheck.RacyCovers | agent/internal/cache/content.go:47-49 | The window of the code is sound if and only if the tick is at most two seconds and one nanosecond |
| ContentCheck.TrustsExactly | agent/internal/cache/content.go:64-69 | When the memory answers for a file, spelled out: the key is the same, and the store wrote the file or it was two seconds old when it was hashed |
| DigestHistory.DetourFails | agent/internal/cache/content.go:71-99 | A concrete history, however short the tick, in which a directory moved away between a check's stat and its open and moved back makes the memory trust another file's digest |
| DigestHistory.MemoryIsFresh | agent/internal/cache/content.go:101-120 | With the digests extractions computed as well, every trusted digest is fresh over such histories, provided no write falls in the tick of a file an extraction just hashed |
| DigestHistory.SameTickIsUnseen | agent/DESIGN.md:187-193 | That proviso is needed, however short the tick |
| DigestHistory.StepKeeps | agent/internal/cache/content.go:71-99 | Every event keeps the memory's invariant, a check under way included |
| DigestHistory.SeenRunKeeps | agent/internal/cache/content.go:101-120 | So does every run, for the digests of extractions too |
| ContentCheck.Sums.Digest | agent/internal/cache/content.go:71-99 | Answers the digest of the file's bytes; reads the file, and remembers it with the time before the read, exactly when the memory has no trusted digest |
| ContentCheck.Sums.Remember | agent/internal/cache/content.go:101-120 | Leaves a trusted digest for every file that can be looked at; the memory still agrees with the disk, and what it knows of other directories stays |
| ContentCheck.Sums.Forget | agent/internal/cache/content.go:122-135 | Afterwards no file under the directory is vouched for, whatever its key, and exactly the rest is remembered |
| ContentCheck.Sums.LookAtAll | agent/internal/cache/content.go:143-162 | Succeeds exactly when every file listed has an acceptable name, is a regular file and has its size, and reads none |
| ContentCheck.Sums.HashAll | agent/internal/cache/content.go:163-171 | Succeeds exactly when every file looked at has its digest |
| ContentCheck.Sums.AllMatching | agent/internal/cache/content.go:137-173 | Equals hashing every listed file afresh; reads nothing when a file is missing, or when the memory vouches for all; vouches for them all after checking files older than the window |
| ContentCheck.Sums.VouchesExactly | agent/internal/cache/content.go:26-69 | When the memory vouches for all files of a listing, and when they have settled, spelled out |
| ContentCheck.RewriteAgrees | agent/DESIGN.md:176-193 | A write by another process under the filesystem's stamp keeps the memory in agreement with the disk, unless an extraction hashed the file in that very tick |
| ContentCheck.UntouchedAgrees | agent/internal/cache/store.go:596-624 | Removing or leaving files keeps the memory in agreement |
| Layout.StateExactly | agent/internal/cache/store.go:109-154 | Which entries are Absent, which are an error, and that only a directory, or a link to one, whose sentinel parses is Complete |
| Layout.CheckedExactly | agent/internal/cache/store.go:133-143 | For a store that checks content and a sentinel that records it: Complete if and only if every recorded name is a file name and leads to a regular file directly in the directory, of the recorded size and with the recorded digest |
| Layout.NamedExactly | agent/internal/cache/store.go:144-153 | For one that does not: Complete if and only if every listed name leads to something |
| Layout.TamperedIsIncomplete | agent/internal/cache/content.go:163-171 | A published directory with one file's bytes replaced by others of another digest is Incomplete |
| Layout.ReplaceableExactly | agent/internal/cache/store.go:398-435 | What the agent and what another writer may replace, by the shape of the entry and of its sentinel |
| Layout.CollectedExactly | agent/internal/cache/store.go:591-631 | A name is left by a collection if and only if it is kept, a flat file, lost+found, a locked temporary, or a directory of another name whose sentinel cannot be read or names another or no owner |
| Layout.LegibleExactly | agent/internal/cache/store.go:608-616 | A collection has a sentinel to report if and only if some directory that is not kept, nor a temporary, nor lost+found, has one that cannot be read |
| Layout.AdoptedExactly | agent/internal/cache/store.go:183-207 | What an adoption makes of a directory, through a link too: the owner is the agent, a file with the name it writes to is gone, all else is as it was |
| Layout.OnlySpareLeaves | agent/internal/cache/store.go:198-206 | A failed adoption leaves the sentinel and every file but one of that name |
| Layout.PublishedIsComplete | agent/internal/cache/store.go:343-356 | What an extraction publishes is Complete, for a store that hashes and one that does not, and its record is the given one with its content |
| Layout.AdoptKeepsComplete | agent/internal/cache/store.go:183-207 | Adopting a complete directory keeps it complete if and only if its sentinel does not list a file with the name Adopt writes to; all else in the sentinel stays |
| Layout.AdoptCanBreak | agent/internal/cache/store.go:193-199 | A concrete directory, complete before its adoption and incomplete after |
| Layout.CollectTwice | agent/internal/cache/store.go:581-633 | A second collection leaves everything the first one left |
| Layout.Grown | agent/internal/cache/store.go:308-331 | Writing one more file adds exactly that file to the directory and to both listings, and a name is taken on disk exactly when it was listed |
| Image.StreamIsTheLayers | agent/internal/puller/stream.go:43-58 | The stream ends cleanly if and only if every layer reads, verifies and closes cleanly and holds no whiteout; it is then the layers one after the other, and otherwise a beginning of them |
| Image.ConcatSplits | agent/internal/puller/stream.go:43-58 | The entries of the layers, layer by layer and in order |
| Image.CopyEntries | agent/internal/puller/stream.go:60-110 | Sends the entries up to the first whiteout, and succeeds exactly when the layer is clean |
| Image.WriteEntries | agent/internal/puller/stream.go:43-58 | Produces that stream, stopping at the first error |
| Image.KeptNames | agent/internal/cache/store.go:297-307 | Every file kept of an acceptable stream has a name the content check looks up, and not the sentinel's |
| Image.UnwritableCondemns | agent/internal/cache/store.go:308-317 | A refused entry or a duplicate found so far condemns the whole stream |
| Image.AcceptableByKinds | agent/internal/cache/store.go:270-341 | A stream is taken if and only if every entry is a file, a directory or an archive's header, every file has a name, no two files share one but the sentinel's, and there is a file to keep |
| Filling.PublishableByKinds | agent/internal/cache/store.go:270-341 | The same for an image, by the kinds and the names of its entries, with every layer read, verified and closed and no whiteout in any |
| Filling.FilledByEntries | agent/internal/cache/store.go:293-331 | The directory then holds a file with these bytes if and only if some entry of that base name, not the sentinel's, is a file with these bytes |
| Filling.FilledSentinel | agent/internal/cache/store.go:343-356 | Under a sentinel with the record, and with the name, digest and size of every file |
| Filling.FilledInOrder | agent/internal/cache/store.go:308-331 | Listed in the order of the entries |
| Filling.PublishableExactly | agent/internal/fill/fill.go:64-82 | An image is published exactly when its layers can be listed, all read to a clean end, and their entries hold no whiteout, no link or device, no nameless file, no base name twice, and at least one file that is not the sentinel's |
| Filling.FilledHolds | agent/internal/cache/store.go:251-356 | The directory then holds exactly those files by base name, each with its bytes, under a sentinel that lists them in layer order with digests and sizes |
| Filling.FilledIsComplete | agent/internal/cache/store.go:343-371 | It is Complete for every store, and its record carries the owner, source, digest and layers |
| Filling.Fill | agent/internal/fill/fill.go:60-83 | Succeeds exactly when the directory may be replaced and the image can be published, and then changes that entry alone; asks the source exactly when the directory may be replaced; tells of a close failure only after a success; changes the resource only with a publishable image at hand |
| Stores.Store.State | agent/internal/cache/store.go:109-154 | Equals hashing every listed file afresh; Complete is never claimed otherwise, and a failed call makes it an error or Incomplete; reads no file the memory vouches for, and vouches for settled files it found complete |
| Stores.Store.ReadSentinel | agent/internal/cache/store.go:209-220 | Answers the sentinel of a directory that has one that parses, through a link too, fails otherwise, and never fails after State answered Complete unless a call on the disk did |
| Stores.Store.ReadRecord | agent/internal/cache/store.go:166-174 | Answers its record |
| Stores.Store.Adopt | agent/internal/cache/store.go:183-207 | Rewrites the owner alone, and fails leaving the directory as it was but for the spare file; every other entry stays |
| Stores.Store.MayReplace | agent/internal/cache/store.go:398-435 | Allows the agent everything but what may be seeded and cannot be told, and another writer only what is absent or bears a sentinel; a failed call allows nothing |
| Stores.Store.CreateTemporary | agent/internal/cache/store.go:481-517 | Returns a new, empty, locked directory of the resource's, or fails and leaves nothing when the clean-up works, and otherwise one temporary |
| Stores.Store.TakeEntry | agent/internal/cache/store.go:270-331 | Takes one entry of the stream: adds its file, skips it, or refuses it, exactly when the stream so far can be written |
| Stores.Store.WriteFiles | agent/internal/cache/store.go:251-341 | Succeeds exactly for a clean acceptable stream, with exactly its files in the temporary and listed in order |
| Stores.Store.Prepare | agent/internal/cache/store.go:239-356 | Leaves the whole replacement with its sentinel in a temporary, or the resource and the memory as they were, and no temporary when the clean-up works |
| Stores.Store.Swap | agent/internal/cache/store.go:361-371 | Replaces the directory by the temporary and seeds the memory with its digests, or leaves a part of what was there or nothing |
| Stores.Store.Extract | agent/internal/cache/store.go:236-372 | All or nothing: done exactly for an acceptable clean stream that may replace what is there; a failure before the swap leaves the resource, the memory and every other entry as they were; whatever failed, no temporary is left when the clean-up works, and the answer says whether it did; after a success the memory vouches for every file |
| Stores.Store.OtherWrites | agent/DESIGN.md:176-193 | What another process may write between two calls, with the memory still in agreement |
| Stores.Store.RemoveTemporary | agent/internal/cache/store.go:537-556 | Removes a temporary exactly when nobody holds its lock |
| Stores.Store.CollectEntry | agent/internal/cache/store.go:591-631 | Removes one entry exactly when it does not survive |
| Stores.Store.GC | agent/internal/cache/store.go:581-633 | Without a fault, what is left is exactly the kept names, regular files, lost+found, locked temporaries and directories whose sentinel parses and names another or no owner, or cannot be read; the names returned are the difference; no error is reported if and only if no call failed and every sentinel it had to read can be read; the memory forgets what was removed and nothing of the survivors. With faults, survivors are untouched and each entry left behind accounts for a failure of its own |
| Stores.Store.WalkEnds | agent/internal/cache/store.go:591-632 | From what happened entry by entry to what is left and returned at the end |
| Stores.Store.SweepTemporaries | agent/internal/cache/store.go:443-473 | Removes exactly the unlocked temporaries of its prefix |
| Passes.OnePassConverges | agent/internal/controller/node_reconciler.go:61-141 | From any cache path, a pass whose every source yields a well-formed image leaves every resource Complete, the agent's and labelled synced, if and only if no sentinel is beyond looking at and no adopted sentinel lists a file with the name Adopt writes to |
| Passes.TurnConverges | agent/internal/controller/node_reconciler.go:79-131 | The same for one resource |
| Passes.SeededExactly | agent/internal/controller/node_reconciler.go:154-178 | Another writer's complete directory whose source resolves and can be pulled is adopted without a pull if the recorded layers are not none and are the resolved ones, and is replaced otherwise |
| Passes.TurnExactly | agent/internal/controller/node_reconciler.go:79-131 | The agent's own complete directory stays, with no question asked; what is not complete is replaced when the cache path is there, the sentinel can be looked at and the image can be published, and stays otherwise |
| Passes.TamperedIsRefilled | agent/internal/controller/node_reconciler.go:82-131 | A directory with one file's bytes replaced by others of another digest is filled again |
| Passes.RootExactly | agent/internal/controller/node_reconciler.go:79-139 | What a pass leaves: of a resource its turn's entry, of the rest what a collection leaves; what it removes is the difference |
| Passes.OrphanGoes | agent/internal/controller/node_reconciler.go:133-139 | A directory the agent filled that no resource asks for is removed |
| Passes.StatusesExactly | agent/internal/controller/node_reconciler.go:79-100 | Before the pulls a resource is shown as synced if and only if its directory is complete and the agent's, at the end if and only if its turn says so |
| Passes.ChangesExactly | agent/internal/controller/node_reconciler.go:105-131 | Whatever fails, the entry of a resource changes only with a whole replacement at hand or by an adoption of the very layers its source resolves to |
| Passes.OthersExactly | agent/internal/controller/node_reconciler.go:133-139 | Whatever fails, an entry no resource asks for only goes or loses parts, what a collection leaves stays as it is, and nothing but temporaries comes |
| Passes.SecondPassIsIdle | agent/internal/controller/node_reconciler.go:195-201 | After it, a second pass resolves and pulls nothing, whatever the registry would answer, and leaves the cache path as it is |
| Passes.NothingToCollect | agent/internal/controller/node_reconciler.go:133-139 | And removes nothing |
| Passes.SecondPassLabels | agent/internal/controller/node_reconciler.go:70-99 | And wants the same statuses |
| Passes.IdlePassSendsNothing | agent/internal/controller/node_reconciler.go:195-206 | Nor does it show a status in between, or send a label |
| Passes.PassAfterPass | agent/internal/controller/node_reconciler.go:195-201 | All of it together: after a pass that served everything the next one finds every resource converged, whatever the registry would answer, and has nothing to change, remove or relabel |
| Reconciling.SecondReportIsIdle | agent/internal/controller/node_reconciler.go:47-152 | On the reconciler's reports: the second of two passes, no call failing and every source good, reports nothing pulled, resolved or removed, the same statuses and cache path, and no patch sent |
| Reconciling.NodeReconciler.NextPass | agent/internal/controller/node_reconciler.go:61-66 | So two calls of Reconcile can be chained: the second is about the first one's pass with the registry's new answers |
| Passes.SyncedAtTheEnd | agent/internal/controller/node_reconciler.go:79-140 | At the end of any pass, whatever failed, a resource marked synced is the agent's, and Complete, unless adopting it took a listed file's place: later turns and the collection of the pass undo nothing |
| Passes.SyncedIsTrue | agent/internal/controller/node_reconciler.go:96-130 | The same for one resource and its turn: a resource marked synced is the agent's, and Complete, unless adopting it took a listed file's place |
| Passes.ForeignTurns | agent/internal/controller/node_reconciler.go:109-178 | A pass changes a complete directory of another writer only when it asks for the resource and, if State answered Complete, its source resolved. To the recorded layers: the result is the adopted directory when marked synced, and otherwise the old one but for the spare file. In every other case a whole replacement was at hand, and the result is that replacement when marked synced, and otherwise what its removal has left |
| Passes.ForeignStays | agent/DESIGN.md:363-376 | Over any run of passes with changing resources, such a directory stays as it is until a pass asks for it and resolves its source, or State does not answer Complete |
| Passes.SeenExactly | agent/internal/controller/node_reconciler.go:82-131 | With a source that can be pulled and not resolved, such a directory is left as it is if and only if State answered Complete; otherwise, after a failed read for instance, it is replaced unresolved |
| Passes.UnresolvedExactly | agent/internal/controller/node_reconciler.go:82-89 | With a source that can be pulled and not resolved, a directory is left as it is if and only if State answers Complete or its sentinel cannot even be looked at |
| Passes.UnreadableIsReplaced | agent/internal/controller/node_reconciler.go:82-89 | A directory a collection keeps because its sentinel cannot be read is replaced, unresolved, by a pass that asks for it |
| Passes.OthersDoNotMatter | agent/internal/controller/node_reconciler.go:105-131 | Permuting the resources, or changing the registry's answers for one of them, changes neither the entry nor the label of another |
| Passes.SeedIsAdopted | agent/internal/controller/node_reconciler.go:154-178 | A directory the command filled is adopted without a pull when the source resolves to the layers it recorded; every file but the spare stays, and only the owner changes in the sentinel |
| Passes.DesiredAre | agent/internal/controller/node_reconciler.go:61-66 | The resources of a pass are exactly the listed ones that select the node |
| Passes.DesiredStaysExactly | agent/internal/controller/node_reconciler.go:61-66 | Passes that leave the other labels alone are about the same resources, whatever the statuses, if and only if no resource selects by a status label |
| PassLoops.LookedOn | agent/internal/controller/node_reconciler.go:79-100 | One more turn of the first loop keeps every earlier finding |
| PassLoops.LoopServes | agent/internal/controller/node_reconciler.go:105-131 | After the second loop every resource was turned as allowed, and no other entry was touched but for temporaries |
| PassLoops.LoopServesClean | agent/internal/controller/node_reconciler.go:105-131 | When no call failed, every resource, label, resolve and pull is the planned one |
| PassLoops.StaysAfter | agent/internal/controller/node_reconciler.go:105-131 | No later turn changes a resource that was served |
| PassLoops.PassEnds | agent/internal/controller/node_reconciler.go:133-139 | The collection that ends the pass undoes nothing of it |
| PassLoops.CleanEnds | agent/internal/controller/node_reconciler.go:70-140 | From the loops and the collection to the pass as a whole, when no call failed |
| PassLoops.OrderExactly | agent/internal/controller/node_reconciler.go:70-152 | What a pass that reports no error has left, spelled out: exactly the resources asked for are shown as synced, State answered wherever it was asked, and the rest is what a collection leaves, with nothing unreadable |
| Reconciling.NodeReconciler.LookAt | agent/internal/controller/node_reconciler.go:82-99 | Tells an unfilled, a seeded, an unreadable and an own directory apart |
| Reconciling.NodeReconciler.Look | agent/internal/controller/node_reconciler.go:70-100 | The first loop does so for every resource |
| Reconciling.NodeReconciler.Adopt | agent/internal/controller/node_reconciler.go:154-178 | Adopts exactly when the source resolves to the recorded, non-empty layers; an unresolved source is an error, another image is not |
| Reconciling.NodeReconciler.Sync | agent/internal/controller/node_reconciler.go:180-193 | Fills the resource, changing nothing without a publishable image and a usable cache path |
| Reconciling.NodeReconciler.Serve | agent/internal/controller/node_reconciler.go:105-131 | One resource of the second loop: exactly the planned turn for what State had answered when no call fails, an allowed one in any case |
| Reconciling.NodeReconciler.ServeAll | agent/internal/controller/node_reconciler.go:105-131 | The second loop, as the steps it took |
| Reconciling.NodeReconciler.Converge | agent/internal/controller/node_reconciler.go:105-139 | Serving and collecting together come to the planned pass, to an allowed one whatever fails, and to order when no error is reported |
| Reconciling.NodeReconciler.Select | agent/internal/controller/node_reconciler.go:61-66 | Selects by label, in list order |
| Reconciling.NodeReconciler.PatchLabels | agent/internal/controller/node_reconciler.go:195-219 | Sends nothing exactly when the statuses are right; otherwise sends one patch, the server's statuses become the wanted ones and every label others wrote, even since the read, stays, unless the patch empties the labels |
| Reconciling.NodeReconciler.Reconcile | agent/internal/controller/node_reconciler.go:47-152 | The whole pass: what may have happened to each entry whatever failed; exactly the planned cache path, statuses, removals, resolves and pulls when no disk call failed; true statuses on the server when no API call failed; which patches were sent, the first while the cache path was as the pass found it and the last when it was as the pass left it; an error exactly when something is to be reported, when no disk call failed, and whatever failed no error only if no API call failed, State answered for every resource, all are synced, and nothing is left to collect or unreadable |
| NodeLabels.Selects | agent/internal/controller/labels.go:17-26 | Matches exactly when every selector entry is a label of the node |
| NodeLabels.ApplyStatusLabels | agent/internal/controller/labels.go:28-53 | The prefixed labels become exactly the wanted ones (an empty value is only written over an existing label), the others stay, and `changed` is true exactly when the maps differ |
| NodeLabels.ShownExactly | agent/internal/controller/labels.go:8-15 | The labels spelled out: image-cache.scality.com/<resource> is synced or pending for every wanted resource and no other, every other label as it was |
| NodeLabels.ApplyTwice | agent/internal/controller/node_reconciler.go:195-201 | Applied again it changes nothing |
| NodeLabels.SentExactly | agent/internal/controller/node_reconciler.go:203-206 | Nothing is sent if and only if the statuses are already the wanted ones |
| NodeLabels.MergeDiff | agent/internal/controller/node_reconciler.go:208-213 | The merge patch of two objects, applied to the first, gives the second (section 2 of RFC 7396) |
| NodeLabels.PatchExactly | agent/internal/controller/node_reconciler.go:208-213 | What the patch says and does, label by label: what differs is set or removed, what does not is left out |
| NodeLabels.PatchedStatuses | agent/internal/controller/node_reconciler.go:208-213 | On an object that changed since the read, the statuses end as the wanted ones if and only if nobody touched one that the patch leaves out, or the patch empties the labels |
| NodeLabels.PatchedOthers | agent/internal/controller/node_reconciler.go:199-201 | Every other label survives the patch if and only if it does not empty the node's labels, or the server has no other label |
| NodeLabels.PatchCanLose | agent/internal/controller/node_reconciler.go:199-213 | It does happen: with one status on the node and none wanted, a label another writer adds meanwhile is gone |
| NodeLabels.AfterAFailedPatch | agent/internal/controller/node_reconciler.go:101-103 | When the first patch of a pass failed, the second leaves the wanted statuses on the server if and only if the ones that did not change in between were there already, or it removes every label; with no resource left nothing is sent |
| NodeLabels.FailedPatchCanLie | agent/internal/controller/node_reconciler.go:101-103 | It does happen: a synced label whose change to pending failed is not sent again, and neither is the removal of the label of a resource that is gone |
| NodeLabels.ResentExactly | agent/internal/controller/node_reconciler.go:140-142 | The second patch of a pass is sent if and only if a status changed |
| Watching.FullExactly | agent/internal/controller/fswatch.go:31-35 | In every interleaving of events and receives, the one-slot buffer is full if and only if a forwarded event came after the last receive |
| Watching.EveryTriggerIsTaken | agent/internal/controller/fswatch.go:82-88 | Once the buffer is empty, each forwarded event was followed by a receive of a trigger, so by a pass that starts after it |
| Watching.ForwardedExactly | agent/internal/controller/fswatch.go:76-92 | Event by event: a write right in a root fills no buffer, a write elsewhere and every other change does, and the roots are those of the last pass |
| Watching.FSWatcher.Start | agent/internal/controller/fswatch.go:66-111 | The event loop keeps that view up to the first cancellation or closing, and fails exactly when the watcher closed on its own |
| Watching.FSWatcher.SetPaths | agent/internal/controller/fswatch.go:126-189 | Watches exactly the roots and the directories under them that no extraction is writing, again after a swap, but for the ones that could not be watched |
| Watching.WantedExactly | agent/internal/controller/fswatch.go:126-145 | The watched paths spelled out: the roots, and every directory right in one that is not a temporary |
| Commands.Do | agent/internal/cli/cli.go:148-206 | Success means Complete; no entry but the resource's and its temporaries changes, and the resource only for a publishable image; without a fault it does exactly what ImportOf says |
| Commands.ImportExactly | agent/internal/cli/cli.go:148-206 | What an import comes to, case by case: refused, already complete, or swept of the resource's unlocked temporaries and then filled exactly when its entry may be replaced and the image published |
| Commands.ImportTwice | agent/internal/cli/cli.go:175-185 | A second import reaches no source and changes nothing |
| Commands.ReplacesExactly | agent/internal/cache/store.go:398-435 | What the agent may replace and the command may not is exactly what is there without a sentinel; both may replace what State calls complete, and neither what cannot be told |
| Commands.NoLeftovers | agent/internal/cli/cli.go:187-197 | An import that reaches its source leaves none of its resource's unlocked temporaries |
| Preloading.Preload | rpm/sources/containerd-image-preload.sh:33-68 | imported + skipped + failed = scanned, each counter is what it says, and the exit is non-zero exactly when an archive that was there failed |
| Preloading.CountsAddUp | rpm/sources/containerd-image-preload.sh:59-59 | Every archive has one fate |
| Preloading.CountsExactly | rpm/sources/containerd-image-preload.sh:33-53 | Each counter is how many archives had that fate |
| Preloading.FlatReachedExactly | rpm/sources/containerd-image-preload.sh:40-40 | The first glob reaches an entry if and only if its name is not hidden and ends in .tar |
| Preloading.ReachedExactly | rpm/sources/containerd-image-preload.sh:40-40 | The second one, the same for names in a directory, or in a link to one, whose name is not hidden |
| Preloading.FlatReaches | rpm/sources/containerd-image-preload.sh:40-40 | Where a collection has just left, the first glob reaches flat files, resources and what another writer seeded or may have, and no temporary |
| Preloading.FlatReachesResources | rpm/sources/containerd-image-preload.sh:40-40 | Of the resources' directories it reaches exactly those whose name ends in .tar |
| Preloading.DirectoryIsHanded | rpm/sources/containerd-image-preload.sh:40-53 | There are such names: the filled directory of the resource a.tar is handed to the import |
| Preloading.ReachesArchivesOnly | rpm/sources/containerd-image-preload.sh:40-40 | The second glob reaches no temporary and nothing of the store's own, and every archive of a resource whose name is not hidden |
| Preloading.DraftsAreHidden | rpm/sources/containerd-image-preload.sh:40-40 | It never reaches a file of an extraction under way |
| Preloading.ArchivesAreWhole | rpm/sources/containerd-image-preload.sh:37-46 | At every moment of every run, an archive the second glob reaches in a resource's directory the store wrote is one whole file of one extraction of it, adoptions under way included |

## Left out

- Tar, PAX, gzip and JSON texts, and SHA-256: a layer is a sequence of entries with an ending, a sentinel a value or garbage, the digest a function.
- Registry access, TLS, platform choice and the choice between a registry and an archive: a puller is a pair of functions, which may answer each resource differently.
- The Kubernetes client and its cache, controller-runtime, events, the workqueue, fsnotify: the API server is an object with labels whose calls may fail; a stale read of the node is not modelled.
- Flags, messages, exit codes and logging of the command, and its check of the cache path's text.
- Concurrent writers of one resource, and an adoption while another process extracts the same resource: the code rules the first out and the protocol both.
- Power loss, bit rot and a clock set back: the design disclaims them.
- Stores.Store.Extract: runs without others in between, and a read that fails inside an entry is a stream that breaks at it; the protocol has the interleavings and the partial files.
- Stores.Store.CreateTemporary: the recheck after the lock is one call with the lock here, and separate steps in the protocol.
- Stores.Store.State: a listed file name that leads out of the directory is looked up as a name in it; the content check refuses such names, the check by names does not.
- Stores.Store.Adopt: a directory or a link under the spare's name is overwritten like a file would be.
- Stores.Store.GC: an entry's inode type is read once, with its sentinel.
- ContentCheck.Sums.Digest: reads a file in one call at one time; the history has the read piece by piece and the clock before it.
- Reconciling.NodeReconciler.Reconcile: the periodic resync and the events it records are left out, and of the order of the patches and the work its contract has what was in the cache path at each patch.
- Filling.CheckCachePath: a cache path that is not a directory is not told from a missing one.
- Watching.FSWatcher.SetPaths: the cache paths come cleaned, and a path is watched or not, whatever was there before.
- The preload's import itself, its logging and its platform.
