# Verification of the debuginfod proxy and its backends

Dafny models of the parts of this repository in which correctness spans many functions, processes or runs, with proofs
of what they are for. `dafny verify dfyconfig.toml` checks everything.

Concurrent protocols are transition systems over values: one predicate per critical section or filesystem call, an
invariant, and theorems about every state of every run, with the process killed between any two steps where that can
happen. Loops and objects are Dafny methods and classes, proved against specification functions about which the
properties are then proved.

## What is modelled

**The streaming file cache** (`cmd/proxy/filecache.go`). `CacheState` is its state and steps: the download with its
ordered teardown and two-file publish, followers reading the same inode behind it, the slot semaphore, the in-flight
map, hits, and an evictor that may unlink any name at any time. `CacheInvariants`, `CacheSteps` and `CacheFollowers`
keep the invariant, `CacheTheorems` draws the promises from it. `CacheEndings` says of every run why a response that
failed did so; `CacheProgress` that a request and a download which nothing disturbs get to their end by steps of their
own; `CacheTeardown` that a download which fails cleans up and a client who leaves is let go. `Ingest` is the write
side as classes (encoder, buffer, counter, file), `EntryReader` the read side, proved under a relation between moments
that `CacheViews` proves of every run. `EndToEnd` ties the writers to the steps and the steps to the client: what a
clean response carried decodes to all that the upstream sent. `CacheServing` hands a concluded response to the handler
of `Response`.

| step | source |
|---|---|
| `Join` | cmd/proxy/filecache.go:275-311 |
| `DlCreate`, `DlHeaders`, `DlFail` | cmd/proxy/filecache.go:416-534 |
| `DlWrite`, `DlPublish`, `DlEof`, `DlSeal` | cmd/proxy/filecache.go:500-574 |
| `DlRename`, `DlMetaCreate`, `DlMetaWrite`, `DlMetaRename`, `DlMetaFail`, `DlRollback` | cmd/proxy/filecache.go:163-186, 576-613 |
| `DlAnnounce`, `DlDrop`, `DlClean`, `DlReturn` | cmd/proxy/filecache.go:328, 341-414 |
| `Register`, `Cancel`, `RunCallback`, `Follow` | cmd/proxy/filecache.go:713-790 |
| `ReadTop`, `ReadChunk`, `CheckDry`, `Catch`, `Conclude` | cmd/proxy/filecache.go:626-708 |
| `ReadMeta`, `OpenBlob`, `StatBlob`, `Copy` | cmd/proxy/filecache.go:803-886 |
| `Unlink` | cmd/proxy/filecache.go:941-1055 |

**The lazy nix store** (`cmd/nix-debuginfod/store.go`). `Paths`, `StoreNames` and `Namespace` model path cleaning,
store path names, the file namespace with some store paths mounted, and the kernel's resolution in it; `StoreWalk` is
`missingFor`; `LazyStore` is `Open` and its class, and compares it with resolution in the namespace where everything
is mounted. Other requests mount and list store paths between any two lookups, of the kernel's as of the walk's, and
between a lookup and the look into the mount table. `LazyTraps` and `LazyLimits` say exactly which link targets can
mislead it, and `LazyChains` what comes of a chain of links, without speaking of resolution. `ImageNames` and
`ImageCache` are the image directory under it: `buildOnce` (356-388) with its slots, the archive branch of `entry`
(489-549), and `archiveFor` (591-630); `ImageAnswers` says what a build's answer means and that an undisturbed one
builds what was asked for.

**The resolver** (`cmd/proxy/finder.go`). `ProbeRace` is `tryAllServers` (379-456): launching, the probes, a channel
of capacity one, the goroutine that closes it, the caller's select. `Resolver` is the remembered state with its
negative backoff, the fast path, requests that share a resolution, and the rules for sources. `Resolving` lets the
resolver's races be runs of `ProbeRace`.

**Lookups.** `SrcIndex` is `srcindex.Index` against the best over every file of every tree. `IpTags` is `ipTagSet`
against longest-prefix match over the flat list.

**Eviction and unpacking.** `Greedy` says what a pass is; `TreeEviction` (`cmd/deb-debuginfod/evict.go`) and
`CacheEviction` (`cmd/proxy/filecache.go:941-1055`) are the two passes. `Unpack` is the staging directory, marker and
rename of `cmd/deb-unpack/main.go:176-235` beside the delete and sweep of `cmd/deb-unpack/trees.go:79-166`, with
directories as inodes, so that a removal still running through an open directory is not tied to a name.
`UnpackAnswers` says what their replies mean, and that undisturbed they do what was asked.

**Responses.** `Response` is net/http's response, the logging writers of `cmd/proxy/context.go` and
`cmd/nix-debuginfod/context.go`, the middleware around a handler, and `proxyRequest`.

**Statistics.** `Stats` and `StatsSlice` are the sums, orders, smoothing and tail-slicing of `cmd/proxy/stats.go`.

## Assumptions

- Process death, not power loss: what a system call has done stays done.
- Temp names, entries and inodes are never reused, also across restarts; SHA-256 is injective, so a key stands for its
  blob's name.
- The gzip encoder is any streaming encoder: it never takes output back, and after a flush or its trailer all that was
  fed can be decoded (`Ingest.Streaming`).
- Lazy store: a mount point's directory and its mount appear at once; mounts are never taken back, and one is listed
  in the table only once it is there. The mount root is a chain of plain directories holding nothing store-shaped but
  mounts; empty and "." components of link targets are dropped on reading. The equivalence theorems ask of the one
  path resolved (`LazyStore.Walkable`) that ".." leads in the targets of the links its eager resolution follows, and
  that this resolution fits into the 256 steps of `missingFor`; the kernel's limit of 40 links counts in the eager
  resolution itself.
- Resolver: reading a state is atomic and the store keeps what it is given; one resolution at a time runs for a build
  ID.
- Image cache: an archive's key determines its path, no archive's path is the beginning of another's, and only
  archives that exist can be fetched.
- Unpacking: dpkg-source exits with success only when the tree is whole; no unpack outlives the stale age; no version
  ends in `.deleting`.
- Statistics: floats are reals and counters do not wrap; the composition theorem asks for series of full length.

## Where code and documentation disagree

- `cmd/proxy/finder.go:445-448` says a timed-out resolution is not recorded as a failure; lines 626-629 count every
  error. The model follows the code (`Resolver.After`).
- INFRA.md says `tryAllServers` ignores `Down`; lines 391-394 of `cmd/proxy/finder.go` skip such servers, as the model
  does.
- `Open` is documented to answer as if everything were mounted. For a path that resolves it answers not-found exactly
  when, at some hop, something was needed when the kernel opened and other requests then outran the walk, the mount
  table keeping up with them: by its last lookup nothing was needed any more, or the store path at which that lookup
  failed was in the table by the time it was read (`LazyStore.NotFoundIsRight`; `RaceAnswersNotFound` and
  `LateTableAnswersNotFound` are inputs). And a link target can mislead the walk exactly when one of its ".." stands
  behind an ordinary component (`LazyLimits.DotsMustLead`).
- cmd/nix-debuginfod/store.go:526-529 counts on the `.name` file being there whenever the image is, and it then is,
  whole. But a process killed while writing it leaves part of it and no image, and a request that learns the path from
  it, by way of the build ID's link, cannot succeed (`ImageCache.PartialRecordFails`).
- The logged status is meant to be the one the client saw. Of a request that is not broken off it is, exactly when no
  call was misjudged and somebody committed to a status (`Response.EndRequest`). The proxy's writer takes an
  informational status for final and the nix backend's takes 101 for informational; the handlers of this repository
  make neither call. But a handler that makes no call leaves the 200 to net/http and 0 in the log: so for an empty
  file in the nix backend (`Response.ServeEmptyFile`; cmd/nix-debuginfod/store.go:436, 669, 808).
- `sliceSnapshot` keeps the source's throughput scale for a view longer than what was collected
  (`StatsSlice.TooLongAViewIsOff`). The collector offers no such view.

## Model

| member | source | states |
|---|---|---|
| CacheTheorems.WholeOrFaulty | cmd/proxy/filecache.go:713-790 | Over every interleaving of downloads, followers, evictor and kills: a response that ends without error was sent exactly the whole stored body of one download of its key that reached its end; at every other moment, and at every other ending, what it was sent is a prefix of one |
| CacheTheorems.HitIsWhole | cmd/proxy/filecache.go:810-886 | An `openCached` that succeeds, first or late, has opened the complete body of a download of that key; the content-length sent (section 8.6 of RFC 9110) is that body's length, and a hit ending without error sent that many bytes |
| CacheTheorems.FinalNamesAreWhole | cmd/proxy/filecache.go:591-609 | Final names never stand for anything half-written, whatever was killed, evicted or refreshed |
| CacheTheorems.OneDownloadPerKey | cmd/proxy/filecache.go:275-311 | A download that is not done is the one in `inflight`, so there is one per key and no teardown removes a successor; taken slots are exactly the downloads not returned, at most 32 |
| CacheTheorems.BusyIsUntouched | cmd/proxy/filecache.go:289-300 | At every moment of every run a response turned away for want of a slot has been sent nothing, has opened nothing and has no length announced |
| CacheTheorems.BusyMeansFull | cmd/proxy/filecache.go:275-311 | Being turned away means that every slot is taken and no live download of the key exists; it starts and publishes nothing |
| CacheTheorems.DoneMeansComplete | cmd/proxy/filecache.go:341-354 | A done entry has no error exactly when its body is complete, and then announces its full length; before that it never promises more than the file holds |
| CacheTheorems.NoLostWakeup | cmd/proxy/filecache.go:641-692 | A response parked on the condition variable still satisfies its wait condition or has its cancellation callback pending; on a done entry nobody is parked; an entry that ended without headers has an error |
| CacheTheorems.FollowerWindsDown | cmd/proxy/filecache.go:626-790 | Once its download is done, a follower, from joining on, is never parked and always has a step of its own, not its client leaving; and each such step ends it, sends it to the finished blob, or lowers a measure of what it can still take |
| CacheTheorems.HitWindsDown | cmd/proxy/filecache.go:803-886 | A response on the finished-blob path always has a step of its own too, and each takes it nearer to its end |
| CacheEndings.FaultHasCause | cmd/proxy/filecache.go:626-886 | In every run a response that ends with a fault has its cause in this very request: its client left, the download it followed had failed with just that fault, a step of its own brought it (a dup, pread or write that failed), or the finished blob was not there to be served |
| CacheEndings.EntryErrorHasCause | cmd/proxy/filecache.go:325-414 | The error that followers get from an entry is the very one with which its download failed |
| CacheProgress.UndisturbedIsServed | cmd/proxy/filecache.go:626-886 | In every state of every run a response whose client stays, of a download without error or of a finished blob that is there, reaches by its own steps alone, in a bounded number of them, a state in which it has all that has been published; if the download is done, or it is a hit, it ends without error with the whole body |
| CacheProgress.StepsOnward | cmd/proxy/filecache.go:713-790 | Every step of such a response that goes well brings it nearer to that, and touches nothing else |
| CacheProgress.StoresWhatItSealed | cmd/proxy/filecache.go:576-613 | A sealed download whose temp file nobody unlinked puts body and document under their final names by five steps of its own, after which the entry is done without error and the key finds this body |
| CacheProgress.BeginsToFill | cmd/proxy/filecache.go:416-534 | A download that has its upstream comes by two steps to where followers can read an empty body in progress |
| CacheProgress.JoinsADownload | cmd/proxy/filecache.go:275-311 | Joining gives a live download of the key to follow, unless all 32 slots are taken and there is none |
| CacheProgress.FollowsWhatItAsksFor | cmd/proxy/filecache.go:269-311 | In every state of every run a new request for a key without a document follows, after three steps, a live download of that key, started for it if there was none, unless 32 are running and none of it |
| CacheProgress.GetsWhatIsThere | cmd/proxy/filecache.go:803-886 | And one for a key whose blob and document are there ends, by steps of its own, with just that body sent and its length announced |
| CacheProgress.NothingOutlivesAKill | cmd/proxy/filecache.go:269-613 | Of a killed process nothing acts any more: until a new request or the evictor comes, the disk stays as it was and no slot is taken |
| CacheTeardown.NothingIsLeftBehind | cmd/proxy/filecache.go:341-414 | In every state of every run a download that has cleaned up has no temp file left, of body or document, and one that was dropped is found under no key |
| CacheTeardown.FailsCleanly | cmd/proxy/filecache.go:325-414 | In every state of every run a download that is not ending yet can fail, at whatever it is doing, and gets then by its own steps to its end: followers have the error if and only if the body was not complete, the temp files are gone, the key is free and the slot given back |
| CacheTeardown.SleeperIsLetGo | cmd/proxy/filecache.go:641-761 | In every state of every run a follower asleep, for the headers or for more, is woken when its client leaves, and ends as cancelled within four steps |
| CacheTeardown.TouchesItsOwn | cmd/proxy/filecache.go:325-613 | A download's step touches no response that does not follow it |
| CacheTheorems.PublishedStays | cmd/proxy/filecache.go:513-516 | What has been published of a body is never changed, and a complete body never changes at all |
| CacheFollowers.NextKeeps | cmd/proxy/filecache.go:269-886 | Every step of a download, response, evictor or kill keeps the whole invariant |
| CacheFollowers.RunKeeps | cmd/proxy/filecache.go:269-886 | Every state of every run satisfies it |
| CacheSteps.OwnStep | cmd/proxy/filecache.go:325-613 | A download step lets no entry shrink or forget its outcome and no complete body change |
| CacheViews.RunsAreHistories | cmd/proxy/filecache.go:513-534 | Two moments of a run at which a download is there satisfy what `Read` is proved under |
| CacheServing.SourceIsHonest | cmd/proxy/filecache.go:269-311 | What the handler gets from a concluded response of any run, in whatever chunks: a busy error exactly when it was turned away, and then on an untouched writer; a reply without error is the whole body of one download of its key |
| CacheServing.ServeThroughCache | cmd/proxy/main.go:93-145 | A run of the cache, then the handler and its middleware: without an error the client got, byte for byte, a complete body of the key, or all that the upstream had when every slot was taken; and on an unbroken connection there is no error when the response ended without one, or was turned away and the upstream replied cleanly |
| EntryReader.Reader.Read | cmd/proxy/filecache.go:626-708 | Bytes given are the next ones of the file, within what was promised; the end is reported exactly of a download that is over without error and all read. Each failure has its reason: a client gone, the entry's own error, a pread's error, or a pread that gave nothing below the promised size of a finished download. It returns once the download is over or the client gone, and untroubled by any of these within three looks |
| EntryReader.Reader.AtHead | cmd/proxy/filecache.go:685-706 | Caught up with the download: waits, and tells the end, an error of the entry, a departed client and more to come from each other, each exactly when it is so |
| EntryReader.Reader.ReadAt | cmd/proxy/filecache.go:645-662 | One pread: at most the published range, its bytes those of the file, an error only when nothing was read and the pread had one |
| EntryReader.Reader.AfterDry | cmd/proxy/filecache.go:663-682 | A read that gave nothing ends the response only with an error that has its reason, and otherwise some time passes |
| EntryReader.Reader.CopyAll | cmd/proxy/filecache.go:803-808 | `io.Copy` over this reader: ending cleanly means the whole finished file was delivered, anything else a prefix of it; when nobody cancels and nothing fails or comes up short, it does end cleanly |
| Ingest.CountingFile.Write | cmd/proxy/filecache.go:196-200 | Writes as much as there is room for, min(|p|, room), and fails exactly when that is less; the counter is the number of bytes in the file either way |
| Ingest.BufWriter.Write | cmd/proxy/filecache.go:483-494 | On success all of it is in the file or the buffer, in order, and what fits into the 32 KiB buffer goes no further; on failure a prefix; errors stick |
| Ingest.BufWriter.FlushBuffer | cmd/proxy/filecache.go:508-511 | On success the buffer is empty; nothing is lost or reordered either way |
| Ingest.Chain.PublishSize | cmd/proxy/filecache.go:500-518 | After success nothing accepted is left above the file: the size is the file's length and decoding the file gives back all that was accepted |
| Ingest.Chain.Encode | cmd/proxy/filecache.go:477-494 | Feeding, flushing or finishing the encoder keeps file plus buffer equal to its output |
| Ingest.Chain.Pump | cmd/proxy/filecache.go:536-574 | Success if and only if the body ends cleanly and what the chain has to store of it, all pieces encoded and finished, fits on the disk; the file is then exactly that, and decodes to the whole body. An account of every promise made: each piece gets its own, promises never shrink or run ahead of the file, and what is promised decodes to exactly the pieces taken; failure leaves the last promise standing |
| EndToEnd.CleanEndIsTheUpstreamBody | cmd/proxy/filecache.go:536-790 | From the upstream to the client, in any run in which what a download does to its body is each time the next thing its writers do: a response that ends without error has carried a file from which the whole body the upstream sent, to its clean end, can be read |
| EndToEnd.CaughtUpIsReadable | cmd/proxy/filecache.go:500-518 | A follower that has caught up can decode exactly the first k pieces: the encoder keeps nothing back from it |
| EndToEnd.AccountIsARun | cmd/proxy/filecache.go:536-574 | Every account of the writers is a run of the steps DlWrite, DlPublish, DlEof and DlSeal that leaves the same file, promise and seal |
| EndToEnd.RunIsLogged | cmd/proxy/filecache.go:513-574 | In every run a body is what its download has written so far, complete only if sealed, and the size promised is that of its last promise |
| EndToEnd.DrivenIsFed | cmd/proxy/filecache.go:536-574 | Then what a download has done to its body is at every moment the beginning of its writers' account |
| EndToEnd.Ingested | cmd/proxy/filecache.go:469-574 | The real chain of writers makes such an account, and with it such a run, complete if and only if the body ends cleanly and fits |
| Namespace.MountFrame | cmd/nix-debuginfod/store.go:312-328 | Mounting more never changes a resolution (section 4.13 of POSIX.1-2017 Base Definitions), unless it had stopped at the root of an unmounted store path, and then the larger namespace goes through that |
| Namespace.LstatNew | cmd/nix-debuginfod/store.go:390-401 | A mount gives a new answer only at the root of what it mounts |
| Namespace.OpenAtOnce | cmd/nix-debuginfod/store.go:312-319 | The kernel's open, while others mount between its lookups, is a resolution in one namespace: that of its last lookup |
| StoreNames.StoreNameIs | cmd/nix-debuginfod/store.go:169-220 | A component names a store path if and only if 32 characters stand before its first dash that are, in lower case, digits or letters other than e, o, t and u; it names the one with those in lower case and the rest as it is. Without a dash it names none |
| StoreNames.CanonicalIs | cmd/nix-debuginfod/store.go:178-220 | And it is spelled like its mount point if and only if those are digits and small letters |
| StoreNames.StoreNameIsCanonical | cmd/nix-debuginfod/store.go:205-220 | The store path read from a component is spelled canonically: reading it again changes nothing |
| StoreNames.StoreNameIsOrdinary | cmd/nix-debuginfod/store.go:178-220 | A store path's name is an ordinary component |
| StoreWalk.ScanIsWalk | cmd/nix-debuginfod/store.go:260-279 | Splicing cleaned link targets and starting over resolves exactly as the kernel does, when ".." leads in the targets it meets |
| StoreWalk.SpliceIsWalk | cmd/nix-debuginfod/store.go:266-279 | Leading ".." climb the same way lexically and physically |
| StoreWalk.MissingNamesTheGap | cmd/nix-debuginfod/store.go:241-283 | `missingFor` names the unmounted store path resolution stopped at, if it stopped at one, and nothing when the path resolves, runs into a file or stopped elsewhere |
| StoreWalk.MissingIsUnmounted | cmd/nix-debuginfod/store.go:241-283 | What `missingFor` names is not in the mount table when it says so, whatever others mount meanwhile |
| StoreWalk.MissingAtOnce | cmd/nix-debuginfod/store.go:246-282 | `missingFor`, while others mount between its lookups and its looks into the table, answers as a walk in the one namespace of its last lookup and one look into the table: a name is what that walk gives without the named mount; no name means that the walk gives none, or one that the table lists by then |
| StoreWalk.KeptUp | cmd/nix-debuginfod/store.go:251-271 | The table lags behind the namespace exactly when a store path is named that the walk's last lookup could have seen |
| StoreWalk.ScanFrame | cmd/nix-debuginfod/store.go:241-283 | Fewer mounts never make the walk longer, so one bound on the eager walk serves every hop |
| StoreWalk.DotsLeadOnFrame | cmd/nix-debuginfod/store.go:260-279 | With fewer mounts resolution follows fewer links, so what leads in the eager resolution leads at every hop |
| LazyStore.LazyEqualsEager | cmd/nix-debuginfod/store.go:312-331 | With every fetch working and nobody interfering, `Open` asks for exactly the unmounted store paths the eager resolution passes through, in order, each once, and answers as that resolution does, file, error or not-found, if and only if they are fewer than its hops; else it gives up. (A path that ends at nothing but a store path spelled with capitals has that one fetched too; one that cannot be fetched is the error.) |
| LazyChains.ChainIsFollowed | cmd/nix-debuginfod/store.go:236-331 | Stated without the resolution or the walk: for every chain of absolute links from one store path into the next, nothing mounted, opening its first place gives the file at its end, or not-found when there is none, and fetches the store paths of the chain in its order; up to fifteen of them, 256 components and the kernel's 40 links. With sixteen or more it gives up, sixteen fetched |
| LazyStore.AnswersAreEager | cmd/nix-debuginfod/store.go:312-331 | Whatever others mount between any two lookups, whatever the fetcher and hop limit: a file returned, and an error other than not-found passed on, is what the fully mounted namespace gives |
| LazyStore.NotFoundIsRight | cmd/nix-debuginfod/store.go:312-331 | For a path that resolves, or runs into a file, not-found is answered if and only if the request was raced; otherwise it means that the path does not resolve. A failed fetch is of a path that cannot be fetched |
| LazyStore.RacedExactly | cmd/nix-debuginfod/store.go:312-331 | Being raced is the only way to a wrong not-found, and always leads there, over all hops: at some hop something was needed when the kernel opened, and the walk was outrun - the table kept up, and nothing was needed any more at its last lookup, or what was needed there first was in the table by the time it looked |
| LazyStore.OnePassExact | cmd/nix-debuginfod/store.go:312-331 | One pass of the loop beside other requests, exactly: done if nothing is needed at the open, not-found if and only if the walk was outrun, and otherwise a store path not in the table is asked for: the first one still needed, or one that is mounted already and not yet listed |
| LazyStore.AskIsNeeded | cmd/nix-debuginfod/store.go:241-331 | A pass asks only for what is not in the mount table and what the eager resolution enters |
| LazyStore.NeverSpeculative | cmd/nix-debuginfod/store.go:241-331 | Under any interference nothing is asked for twice or when listed at the start, one store path a hop, and only what the eager resolution goes through - but for a path ending at a store path with capitals in its hash |
| LazyStore.OthersOnlyHelp | cmd/nix-debuginfod/store.go:312-331 | Whatever others mount, and between whichever lookups: with every fetch working and fewer store paths of the way unlisted than there are hops, the file is returned if and only if the request was not raced, and not-found is answered if it was |
| LazyStore.RaceAnswersNotFound | cmd/nix-debuginfod/store.go:312-331 | The first race, an instance: ask for a store path that another request mounts between the failed open and `missingFor` |
| LazyStore.LateTableAnswersNotFound | cmd/nix-debuginfod/store.go:251-258 | The second race, an instance: ask straight for a path in a store path that another request mounts between the lookup that fails and the look into the table; all else may still be needed |
| LazyStore.Hop | cmd/nix-debuginfod/store.go:312-328 | Each hop either opens the file or names the next store path needed, and mounting it takes exactly that one off the list |
| LazyStore.Store.MissingFor | cmd/nix-debuginfod/store.go:241-283 | The loop computes the specified walk, other requests having their turn before each lookup and before each look into the table |
| LazyStore.Store.Ensure | cmd/nix-debuginfod/store.go:334-351 | A store path in the table is left alone; any other is mounted and listed if it can be fetched, or if another request is mounting it, and otherwise nothing changes |
| LazyStore.Store.Hop | cmd/nix-debuginfod/store.go:312-328 | One pass of the loop, others mounting all the while, and the mounts it leaves |
| LazyStore.Store.Open | cmd/nix-debuginfod/store.go:312-331 | The loop, of 16 hops, is the specified run beside any interference, leaves everything it asked for listed, and keeps all of the promises above |
| LazyLimits.DotsMustLead | cmd/nix-debuginfod/store.go:260-279 | For every mount root and every target that does not name its first directory: the target can mislead `missingFor` if and only if some ".." in it does not lead. There is then a namespace over that root, every other link harmless, where the kernel stops at an unmounted store path and the walk, with any number of steps, does not name it |
| LazyLimits.MisledIsNotFound | cmd/nix-debuginfod/store.go:312-331 | And then `Open` answers not-found at its first hop for a path that resolves |
| LazyLimits.LeadingIsNeverMisled | cmd/nix-debuginfod/store.go:241-283 | Where ".." leads the walk, given steps enough, names the store path that the kernel stopped at, whatever the mount root |
| ImageNames.KeyRoundTrip | cmd/nix-debuginfod/store.go:452-481 | The key read back from a build ID's link is the key that was written, for every archive name |
| ImageNames.ImagesAreDistinct | cmd/nix-debuginfod/store.go:452-461 | Only the image of a key reads back as that key |
| ImageNames.ImageIsNoArchive | cmd/nix-debuginfod/store.go:445-461 | The directions are not symmetric: an image's name never passes for an archive |
| ImageNames.ArchiveKeyIs | cmd/nix-debuginfod/store.go:445-461 | An archive's key is what stands in its name before the first dot, whatever directory it is in, if that is 20 to 60 digits and small letters; otherwise it has none |
| ImageNames.ImageNameReadsBack | cmd/nix-debuginfod/store.go:452-461 | Of a name made like an image's the key is read back if and only if it is 20 to 60 digits and small letters |
| ImageCache.ImagesAreWhole | cmd/nix-debuginfod/store.go:356-388 | Under kills, eviction and concurrency an image's name stands only for the output of a build that succeeded, of just that store path hash or archive |
| ImageCache.ImageIsOnRecord | cmd/nix-debuginfod/store.go:501-530 | An archive's image implies that its `.name` file holds all of the path it was made from |
| ImageCache.BuildsAreBounded | cmd/nix-debuginfod/store.go:127-137 | Slots in use are exactly the builds holding one, never more than the limit; one call per flight |
| ImageCache.LinksTellTheKey | cmd/nix-debuginfod/store.go:591-630 | A build ID's link gives the key of its archive; the path a warm request reads begins that archive's, and is all of it wherever the archive's image stands |
| ImageCache.PartialRecordFails | cmd/nix-debuginfod/store.go:501-530 | A `.name` file left partly written defeats the requests that learn the path from it: a running build can succeed if and only if the path its request holds is whole, or it holds none and asks |
| ImageAnswers.AnswersAreTrue | cmd/nix-debuginfod/store.go:356-388 | A build that answers well had its image standing while it was there; one that answers otherwise has failed at a step of its own or its request went away |
| ImageAnswers.BuildsWhatIsAsked | cmd/nix-debuginfod/store.go:334-388 | In every state of every run a request for a store path without an image, that nobody is building and with a slot free, gets by its own steps to where the image stands, made of this store path, its slot given back, and answers well |
| ImageAnswers.BuildsTheArchive | cmd/nix-debuginfod/store.go:489-549 | And one for a build ID that the binary cache knows, with the archive that it names |
| ImageAnswers.BuildsByTheLink | cmd/nix-debuginfod/store.go:591-630 | And one that has the key from the build ID's link, when all of the archive's path is on record beside it, or nothing, and it then asks |
| ImageAnswers.NothingOutlivesAKill | cmd/nix-debuginfod/store.go:356-388 | Of a killed process nothing acts any more and no slot stays taken |
| ImageAnswers.NothingIsLeftBehind | cmd/nix-debuginfod/store.go:356-388 | In every state of every run a build that is over has left no temp file |
| ImageCache.NextKeeps | cmd/nix-debuginfod/store.go:356-388 | Every step keeps the invariant |
| ProbeRace.WinnerBringsItsOwnHeaders | cmd/proxy/finder.go:379-456 | A winner is an upstream that was asked, with the headers of its own successful probe |
| ProbeRace.NotFoundMeansNobodyHasIt | cmd/proxy/finder.go:440-455 | Not-found is answered only when every upstream not marked Down was asked and failed |
| ProbeRace.NobodyHadIt | cmd/proxy/finder.go:440-455 | And, unless the caller's context had ended, none of them failed because the probes were called off |
| ProbeRace.NoPanic | cmd/proxy/finder.go:423-435 | The channel is closed once, after the last send: nobody who is about to send or to close finds it closed |
| ProbeRace.OneEntryPerProbe | cmd/proxy/finder.go:402-437 | What is logged has exactly one entry per upstream not Down, telling how its probe ended |
| ProbeRace.RunsAreShort | cmd/proxy/finder.go:379-456 | No run is longer than the work it started with |
| ProbeRace.NeverStuck | cmd/proxy/finder.go:412-440 | While the caller waits, something other than its own context's end can happen, and without a probe if none is out |
| ProbeRace.StuckMeansReturned | cmd/proxy/finder.go:379-456 | A run in which nothing can happen but the end of a probe or of the caller's context, and with no probe out, has returned: the caller never waits on a channel nobody will close. With its context alive it has a winner exactly if some probe was answered, and not-found exactly if none was. Every probe is gone by then and the log is written |
| ProbeRace.OthersAreCalledOff | cmd/proxy/finder.go:384-456 | Once the caller is back, its context has ended, or the probe whose result was taken has moved on, the other probes are called off |
| ProbeRace.ContextAnswerNeedsContext | cmd/proxy/finder.go:440-455 | That the context ended is answered only when it has |
| ProbeRace.NextKeeps | cmd/proxy/finder.go:379-456 | Every step keeps the invariant |
| Resolving.RaceIsFair | cmd/proxy/finder.go:379-456 | What a run of `tryAllServers` returns is what the resolver relies on: a winner is one of its upstreams, up, that had the build ID when asked, with its own headers; not-found means that every upstream that is up was asked in vain |
| Resolving.ResolveByRace | cmd/proxy/finder.go:568-636 | A resolution whose race is such a run: a build ID newly resolved is remembered with what that upstream itself sent, and one newly not found is one that no upstream that is up had |
| Resolver.RoundsAreFew | cmd/proxy/finder.go:588-591 | However often it is asked for, a build ID causes at most 31 probe rounds, fewer if failures are on record |
| Resolver.RoundTakesPlace | cmd/proxy/finder.go:588-611 | A call asks the upstreams if and only if the build ID is not resolved, has failed at most 30 times, and since the last round 30 minutes, 1 hour or 2 hours have passed after one, two or three failures, and 24 hours otherwise |
| Resolver.RoundsAreSpaced | cmd/proxy/finder.go:593-611 | Between rounds at least the time passes that the failures so far ask for: half an hour, an hour, two hours, then a day |
| Resolver.RoundsTakeTime | cmd/proxy/finder.go:593-611 | k >= 4 rounds take at least 3.5 h + 24 h * (k - 4) |
| Resolver.RoundsCount | cmd/proxy/finder.go:613-634 | Each round is either counted as a failure or is the success; the state remembers the last one |
| Resolver.SuccessAbsorbs | cmd/proxy/finder.go:577-587 | After a success no round follows and the host never changes |
| Resolver.WinnerServes | cmd/proxy/finder.go:631-636 | A round that is won answers with the winner, and so does every later call, whatever is called in between; its headers are kept |
| Resolver.LoserIsCounted | cmd/proxy/finder.go:623-630 | A round that is lost is answered with its reason and counted |
| Resolver.AnswersWithoutAsking | cmd/proxy/finder.go:575-611 | Without a round a resolved build ID is answered with its upstream exactly while that is configured and up, by temporarily-down while it is down, and an unresolved one by not-found; nothing of it is remembered |
| Resolver.SourceRulesAreSound | cmd/proxy/finder.go:541-560 | A source request succeeds exactly when the resolving upstream has sources, and is then served by it, or names a delegate that is up, and is then served by that one; otherwise it says that sources are not to be had. Nobody-has-it is neither made up nor lost, and other endpoints are left alone |
| Resolver.Finder.BgFind | cmd/proxy/finder.go:568-636 | The answer and the state left behind are the specified ones, and every build ID's state stays the fold of its calls; after a round that is won every later call is answered with the winner |
| Resolver.Finder.FindByBuildID | cmd/proxy/finder.go:491-531 | The fast path answers what the slow path plus source rules would at any time, and runs nothing; the slow path answers for the state other callers have left; what is served by an upstream is answered with it, by the endpoint's rules, and stays so |
| Resolver.Finder.FindTogether | cmd/proxy/finder.go:514-531 | Requests that share one resolution: one call is made for all, and each gets what it would have got alone, by its own endpoint, or leaves with its client |
| Resolver.Finder.Overtake | cmd/proxy/finder.go:561-567 | Callers queued before this one each leave the state as specified |
| Resolver.Finder.GetState | cmd/proxy/finder.go:460-481 | A copy of what is remembered, fresh for a new build ID; nothing else changes |
| SrcIndex.Index.New | srcindex/srcindex.go:75-113 | Each bucket holds the files of its basename over all readable trees, in walk order with their priorities; unresolved roots are recorded |
| SrcIndex.Index.Find | srcindex/srcindex.go:116-153 | The path, below its root, of the best file over all trees: longest match, then priority, then shallowest, then first; none exactly when no file shares the basename |
| SrcIndex.JoinedIsBelow | srcindex/srcindex.go:150-153 | Joining never leaves the tree: the path is the root's own, cleaned, and below it where the walk found the file |
| SrcIndex.BestOf | srcindex/srcindex.go:123-144 | The scan over one bucket leaves the first best |
| SrcIndex.CommonPrefixLen | srcindex/srcindex.go:155-162 | The length of the common prefix, and of no longer one |
| SrcIndex.PrefixOfReversed | srcindex/srcindex.go:116-124 | A shared prefix of reversed paths is the shared suffix |
| SrcIndex.BestIsUnique | srcindex/srcindex.go:116-153 | There is one best file |
| SrcIndex.BestOfAll | srcindex/srcindex.go:29-36 | The best of the bucket is the best of every file of every tree; sharing the basename is sharing a component |
| SrcIndex.EarlierTreeWins | srcindex/srcindex.go:126-144 | Of two trees with equally long matches the one listed earlier gives the file, and within it the shallower file: in terms of the trees given |
| SrcIndex.LongerRequestsMatchMore | srcindex/srcindex.go:56-64 | Extending a request on the left with ordinary components keeps the match and never shortens the winner's |
| IpTags.IpTagSet.constructor | cmd/proxy/ghranges.go:180-211 | The buckets hold what the list says last for each network, longest masks first |
| IpTags.Lookup | cmd/proxy/ghranges.go:214-236 | Longest-prefix match (section 5.1 of RFC 4632) over the flat list for the unwrapped address (section 2.5.5.2 of RFC 4291), the last listed among identical prefixes; "" without a set, for an invalid address and when nothing matches |
| IpTags.UnmapIs | cmd/proxy/ghranges.go:214-222 | ::ffff:a.b.c.d means a.b.c.d (section 2.5.5.2 of RFC 4291), any other address itself: bit by bit |
| IpTags.ContainsIs | cmd/proxy/ghranges.go:224-234 | A prefix contains an address of its own family that agrees with it in its first bits |
| IpTags.AnswerIsUnique | cmd/proxy/ghranges.go:214-236 | That answer is a matter of the list alone |
| IpTags.LastServiceIs | cmd/proxy/ghranges.go:180-193 | A network's stored service is that of its last listing |
| IpTags.HitIsOwner | cmd/proxy/ghranges.go:224-234 | The first bucket that has the network holds the longest match |
| IpTags.MissMeansNone | cmd/proxy/ghranges.go:224-234 | A bucket without it rules its length out |
| Greedy.PassIsTheShortest | cmd/deb-debuginfod/evict.go:99-119 | Whatever deletes fail, no shorter prefix of the order meets the target, and no longer one is a pass |
| Greedy.LittleOvershoot | cmd/deb-debuginfod/evict.go:99-119 | A pass that meets its target ends with a successful delete and frees less than the excess plus that victim |
| TreeEviction.Srv.EvictOnce | cmd/deb-debuginfod/evict.go:63-129 | A pass succeeds exactly when the trees can be listed. Victims are a prefix of the oldest-first order, each attempted only while the total exceeded the budget, the pass ends within it or with everything attempted; it does end within it when the unpacker deletes what it is asked to; indexes and use times of exactly the attempted trees are dropped; within budget nothing happens |
| TreeEviction.Srv.EvictInOrder | cmd/deb-debuginfod/evict.go:99-124 | The greedy loop keeps its running total at or below what was really freed |
| TreeEviction.Srv.Forget | cmd/deb-debuginfod/evict.go:107-118 | The index and use time go before the tree is asked away |
| TreeEviction.Srv.DeleteTree | cmd/deb-debuginfod/evict.go:148-162 | Only a tree no index offers is deleted; a failed answer may hide a delete |
| TreeEviction.Srv.EvictLoop | cmd/deb-debuginfod/evict.go:41-61 | Once a pass leaves the volume within budget no later one removes a tree, and with an unpacker that obeys every pass does; a budget of zero or less disables it |
| TreeEviction.OrderIgnoresListing | cmd/deb-debuginfod/evict.go:77-97 | With the tie broken on the key the order does not depend on how the trees were listed |
| TreeEviction.OldestGoFirst | cmd/deb-debuginfod/evict.go:77-97 | No tree that a pass left alone was used, or if never used modified, before one that it tried to delete |
| CacheEviction.Cache.EvictOnce | cmd/proxy/filecache.go:941-1055 | Abandoned temp files aside, victims are a prefix of the blobs by age, each removed only while the target was exceeded; only they and their `.meta` go; nothing under the limit; and where files can be removed the cache ends at its target, no abandoned temp file left |
| CacheEviction.Cache.Survey | cmd/proxy/filecache.go:951-1019 | Counts live temp files, `.meta` files and blobs, removes only abandoned temp files, and lists exactly the blobs |
| CacheEviction.Cache.Drop | cmd/proxy/filecache.go:1041-1049 | A blob goes with its `.meta`, or nothing does |
| CacheEviction.Cache.EvictInOrder | cmd/proxy/filecache.go:1036-1051 | The greedy loop against its target |
| CacheEviction.Cache.EvictLoop | cmd/proxy/filecache.go:920-933 | Once a pass leaves the cache at its target no later one removes a blob, though time goes on |
| CacheEviction.OnlyOursGo | cmd/proxy/filecache.go:1008-1016 | No foreign file is touched, no live temp file, nothing unreadable but a victim's `.meta`, and a blob goes exactly when it was a successful victim |
| CacheEviction.OldestGoFirst | cmd/proxy/filecache.go:1024-1051 | No blob that a pass left alone was modified before one that it tried to remove |
| CacheEviction.KindIs | cmd/proxy/filecache.go:951-1019 | A key of 64 hexadecimal digits is a blob, with .meta its document, and with .tmp- in it a temp file |
| CacheEviction.AbandonedIs | cmd/proxy/filecache.go:951-1019 | A temp file is abandoned once nothing was written to it for more than half an hour |
| Unpack.FinalIsWhole | cmd/deb-unpack/main.go:176-235 | Over unpack, delete, sweep, operator and kill: what an unpack placed at a package's final name is the whole extracted tree with its marker |
| Unpack.LeavesInOneStep | cmd/deb-unpack/trees.go:79-104 | It leaves that name only by the delete's rename, whole, and is untouched by the step |
| Unpack.NextKeeps | cmd/deb-unpack/trees.go:121-166 | Every step, removals that outlive their name among them, keeps the invariant |
| UnpackAnswers.RepliesAreTrue | cmd/deb-unpack/main.go:176-235 | An unpack that replies well had the tree: it stood complete under its final name while the unpack ran. One that replies otherwise has failed at a step of its own, or its rename was hindered and it looked again in vain |
| UnpackAnswers.UnpacksWhatIsAsked | cmd/deb-unpack/main.go:176-235 | In every state of every run a new unpack of a package, nothing or an empty directory standing under its final name, gets by its own steps to where the whole tree stands there and the reply says so |
| UnpackAnswers.FindsItThere | cmd/deb-unpack/main.go:176-190 | One of a package whose tree stands there with its marker says so at once, and nothing is touched |
| UnpackAnswers.DeletesWhatIsAsked | cmd/deb-unpack/trees.go:79-119 | And a delete gets by its own steps to where the tree and its doomed name are gone and every other name still stands |
| UnpackAnswers.SweepsWhatIsLeft | cmd/deb-unpack/trees.go:121-166 | A sweep takes away a doomed tree, or the staging directory of an unpack that is no more, and nothing else |
| UnpackAnswers.NothingOutlivesAKill | cmd/deb-unpack/main.go:176-235 | Of a killed process nothing acts any more: until somebody begins something new, not a file changes |
| Response.LoggingResponseWriter.WriteHeader | cmd/nix-debuginfod/context.go:41-60 | Nothing after the commit reaches the client; in the nix writer a 1xx never commits (section 15.2 of RFC 9110) |
| Response.LoggingResponseWriter.Write | cmd/proxy/context.go:42-52 | Commits a 200 if nothing did; counts what the client took; samples the time at the first byte past 100 KiB |
| Response.Finish | cmd/proxy/context.go:88-146 | For every sequence of handler calls: at most one final status goes out by its end, and the logged one, which is the one recorded, is it if and only if no call was misjudged (a 1xx first in the proxy's writer, a 101 in the nix one); an error gives one error page alone or an aborted connection |
| Response.EndRequest | cmd/proxy/context.go:88-146 | The whole of a request, net/http's implicit 200 included: unless it is broken off, the logged status is the one the client saw if and only if no call was misjudged and somebody, the handler or the error page, committed to one |
| Response.ServeEmptyFile | cmd/nix-debuginfod/store.go:436 | A handler that makes no call at all: the client sees 200 and 0 is logged |
| Response.ProxyRequest | cmd/proxy/main.go:93-145 | One source serves the response: the cache or, if that is busy, which it then says of an untouched response (`CacheServing.SourceIsHonest`), the upstream |
| Response.ServeHTTP | cmd/proxy/context.go:64-147 | The client gets one source whole under its status, or an error page alone, or a connection broken off within the body; whenever that status is final the log agrees with the one status that went out. While the client takes everything, there is an error exactly when the source had one, and what arrives is all of it |
| Response.Send | cmd/proxy/filecache.go:803-808 | The status first, then the body up to the first failed write; all of it when none fails |
| Response.RecordedWhenCommitted | cmd/proxy/context.go:32-40 | A status is recorded exactly when something committed |
| Response.FirstCallDecides | cmd/proxy/context.go:32-40 | A handler that starts with a final status is logged with it |
| Response.PageSays | cmd/proxy/context.go:88-130 | Which page an error has: for the proxy 501, 404 and 503, in that order, for what the error says, the last with its message; for the nix backend 404 when there is nothing; 500 for anything else, whose text says nothing of the error |
| StatsSlice.SliceSnapshot | cmd/proxy/stats.go:737-845 | The loops, sorts and sums give the specified view: tails of all series, with totals, orders and scale worked out from them |
| StatsSlice.SlicesCompose | cmd/proxy/stats.go:737-845 | Cutting to a and then to b <= a is cutting to b, order and scale included |
| StatsSlice.SliceKeepsWellFormed | cmd/proxy/stats.go:740-749 | A view is well-formed if and only if it is no longer than what was collected or asks for the same smoothing |
| StatsSlice.TooLongAViewIsOff | cmd/proxy/stats.go:740-749 | A longer view can keep a throughput scale its smoothing no longer has |
| StatsSlice.SliceIsUnique | cmd/proxy/stats.go:737-845 | There is one view of each length |
| StatsSlice.OnlyTheLastDays | cmd/proxy/stats.go:750-845 | A view of fewer days has, in every series, the values of the last of them and today, day by day |
| StatsSlice.BusiestComeFirst | cmd/proxy/stats.go:737-867 | It lists the busiest of its own days first, what was never resolved before all hosts, and is smoothed over 1, 3 or 7 days for at most 14, at most 60 or more |
| Stats.SortByVolume | cmd/proxy/stats.go:856-867 | A permutation in order: unresolved first where pinned, then volume, then name |
| Stats.SmoothPairs | cmd/proxy/stats.go:1021-1040 | Each value is the average of the last `win`, or of as many as there are |
| Stats.AverageIsTheMean | cmd/proxy/stats.go:1021-1040 | Each smoothed value, times the number of days it is taken over, is their sum: `win` days, or as many as there are |
| Stats.SharedScale | cmd/proxy/stats.go:808-821 | The highest smoothed value of any host, or one |
| Stats.AddUp | cmd/proxy/stats.go:787-797 | The sum does not depend on the order a map is ranged over |
| Stats.WeighTraffic | cmd/proxy/stats.go:774-782 | Each host's volume over all endpoints and days |
| Stats.SumOfStretches | cmd/proxy/stats.go:774-797 | The total of two stretches of days is the sum of their totals |
| Stats.RawIsUnchanged | cmd/proxy/stats.go:1010-1013 | Up to 14 days nothing is smoothed |
| Orders.SortedIsUnique | cmd/proxy/stats.go:638-646 | Without ties there is one sorted arrangement |
| Orders.Sort | cmd/deb-debuginfod/evict.go:84-97 | In place: sorted, and the same elements |

## Left out

- CacheTheorems.HitIsWhole: says nothing of a hit's other headers, which may come from another download of the same
  size; a blob without `.meta` is possible and not excluded.
- CacheTheorems.FollowerWindsDown: counts a follower's own steps; that the scheduler lets it take them is assumed.
- EndToEnd.CleanEndIsTheUpstreamBody: which account a download's writers will have given is known from the start of
  the run (`Driven`); `Ingested` gives one for any upstream body, and `AccountIsARun` takes it as steps.
- LazyStore.NeverSpeculative: a path that ends at a store path spelled with capitals in its hash may have its
  canonical spelling fetched, which the eager resolution does not enter; for a path that ends in too many links no
  walk may have come when nothing was needed any more (`LazyStore.Overtaken`).
- LazyChains.ChainIsFollowed: its links are absolute and its store paths different; `LazyEqualsEager` has no such
  limits.
- CacheProgress.UndisturbedIsServed: the response's steps are taken one after the other, with no one else's in
  between; that others' steps in between do not take it back is said for safety only
  (`CacheTheorems.FollowerWindsDown`).
- ImageAnswers.BuildsWhatIsAsked: of a build that has just begun; requests that find one of their target under way
  share its answer and are not jobs of their own.
- LazyStore.LazyEqualsEager: asks that no other request interferes, because which store paths this request fetches,
  and in how many hops, depends on what others mount; `OthersOnlyHelp` gives the answer under any interference.
- LazyStore.Store.Ensure: fetch, build and mount have one outcome, and a request that waits for another's flight
  always finds the mount there; that the other's flight fails is not modelled.
- LazyLimits.DotsMustLead: for a target that names the mount root's first directory only one half is proved, that
  leading ".." never mislead (`LeadingIsNeverMisled`): the directories down to the root are never links, so that an
  absolute target which steps into them and out again can be harmless.
- StoreNames.StoreName: lowers ASCII letters, the Kelvin sign and U+0130 only, the characters whose lower case is an
  ASCII letter; of any other a hash has none either way.
- IpTags.Lookup: addresses have no zone; parsing addresses and prefixes is not modelled.
- SrcIndex.Index.New: symlinks are resolved before a walk is given, and a walk's unreadable parts are left out of it.
- CacheEviction.Cache.EvictOnce: one clock reading a pass; files appearing during the walk are not modelled.
- TreeEviction.Srv.EvictOnce: requests served during a pass are not modelled, so neither is an index rebuilt while its
  tree goes.
- Response.EndRequest: response headers other than the status are not modelled.
- CacheServing.ServeThroughCache: which status the reply has, and which of its errors the upstream had, is left open.
- Resolver.Finder.GetState: the LRU's own expiry and a state that goes stale between its two lines are not modelled,
  nor is the database's coarser clock.
- Stats.SortByVolume: weights are computed before sorting instead of in the comparison.
- The update of a blob's mtime on a hit, which the eviction order reads, is not a step of the cache model.
- Several processes on one cache volume: only that names may be unlinked at any time.
- HTTP clients, TLS, ClickHouse, JSON, logging, mount system calls, NAR and erofs tooling, HTML and SVG rendering:
  input and output, or libraries that are not part of this model.
- `cmd/releases`, `cachestat.go`, `cfip.go`, `archive.go`, `useragent`, `filesFromDsc`, `GetSource`, `GetExecutable`:
  they would add easy members only.
