/** The streaming file cache of the proxy as a transition system: its state and its steps.

    One background download per key appends to a temp file; followers read the same inode behind it.
    A step is one critical section or one filesystem call; `Kill` is the death of the process between
    any two of them. What is in memory dies with it, what is on disk stays. */
module CacheState {
  import opened Options

  newtype Byte = x: int | 0 <= x < 256
  type Bytes = seq<Byte>
  type Key = string

  /** Downloads are numbered; so are the inodes of their bodies, their temp names and their entries,
      since each download creates at most one of each. Responses are numbered too. */
  type Id = nat

  const MAX_CONCURRENT_DOWNLOADS := 32

  datatype Fault =
    | Upstream | Disk | ClientGone | Cancelled | UnexpectedEof
    | NoHeaders | NotPublished

  datatype Meta = Meta(status: nat, size: nat)

  /** A `.meta` file while it is being written, and afterwards. */
  datatype Doc = Partial | Full(meta: Meta)

  /** The inode a download writes its body to. `complete` is set once the whole body is in it. */
  datatype Body = Body(key: Key, bytes: Bytes, complete: bool)

  datatype Stage =
    | Fetching      // asking the upstream, creating the temp file
    | Created       // the temp file exists, nobody may read it yet
    | Reading       // followers may inherit the descriptor
    | Drained       // upstream EOF, encoder closed, buffers flushed
    | Sealed        // the final size is published: bodyComplete
    | Renamed       // the blob stands under its final name
    | MetaCreated | MetaWritten
    | RollingBack   // writing .meta failed; the blob is to be removed
    | Unwinding     // about to run the teardown
    | Announced     // done is set
    | Dropped       // out of inflight
    | Cleaned       // temp file closed and removed
    | Returned      // slot given back

  /** A cache entry and the goroutine that fills it. */
  datatype Download = Download(
    key: Key, stage: Stage,
    headersReady: bool, tmpFile: bool, size: nat, done: bool, err: Option<Fault>,
    bodyComplete: bool, finalErr: Option<Fault>, tmpPath: bool)

  function NewDownload(key: Key): Download {
    Download(key, Fetching, false, false, 0, false, None, false, None, false)
  }

  /** Where a response stands. */
  datatype Spot =
    | Lookup                                 // openCached: about to read .meta
    | HaveMeta(meta: Meta)                   // about to open the blob
    | Opened(meta: Meta, ino: Id)            // about to stat what was opened
    | Joining                                // Serve: about to enter the critical section
    | Registering                            // follow: about to register the cancellation callback
    | Waiting(parked: bool)                  // follow: waiting for the headers
    | Top                                    // Read: about to see how much is published
    | Pread(avail: nat)
    | Dry                                    // pread gave nothing although something was published
    | AtHead(parked: bool)                   // Read: caught up with the download
    | Woken(finished: bool, derr: Option<Fault>)
    | Copying                                // copying an opened, finished blob
    | TurnedAway                             // no slot: ErrCacheBusy
    | Ended(fault: Option<Fault>)

  /** `late` tells the second openCached, from follow, from the first one, from Serve. `callback` is a
      cancellation callback that has not run yet. `src` is the inode read from, `sent` what has been written
      to the client, `length` the content-length it was told. */
  datatype Response = Response(
    key: Key, at: Spot, late: bool, dl: Option<Id>, cancelled: bool, callback: bool,
    src: Option<Id>, off: nat, sent: Bytes, length: Option<nat>)

  datatype State = State(
    next: Id,
    dls: map<Id, Download>, resps: map<Id, Response>, inflight: map<Key, Id>, taken: nat,
    bodies: map<Id, Body>, tmps: set<Id>, blobs: map<Key, Id>,
    metas: map<Key, Doc>, metaTmps: map<Id, Doc>)

  predicate Init(s: State) {
    s == State(0, map[], map[], map[], 0, map[], {}, map[], map[], map[])
  }

  // ------------------------------------------------------------------ helpers

  function Unpark(at: Spot): Spot {
    match at
    case Waiting(_) => Waiting(false)
    case AtHead(_) => AtHead(false)
    case _ => at
  }

  predicate Parked(at: Spot) {
    at == Waiting(true) || at == AtHead(true)
  }

  /** Broadcast on the condition variable of entry d. */
  function Wake(resps: map<Id, Response>, d: Id): map<Id, Response> {
    map f | f in resps :: if resps[f].dl == Some(d) then resps[f].(at := Unpark(resps[f].at)) else resps[f]
  }

  function Put(s: State, d: Id, x: Download): State {
    s.(dls := s.dls[d := x])
  }

  function PutResp(s: State, f: Id, x: Response): State {
    s.(resps := s.resps[f := x])
  }

  // ------------------------------------------------------------------ the download

  predicate At(s: State, d: Id, stage: Stage) {
    d in s.dls && s.dls[d].stage == stage
  }

  /** Everything that may fail before the body is complete ends up here with a non-nil error. */
  predicate DlFail(s: State, s': State, d: Id, e: Fault) {
    && d in s.dls && s.dls[d].stage in {Fetching, Created, Reading, Drained}
    && s' == Put(s, d, s.dls[d].(stage := Unwinding, finalErr := Some(e)))
  }

  predicate DlCreate(s: State, s': State, d: Id) {
    && At(s, d, Fetching)
    && s' == Put(s, d, s.dls[d].(stage := Created, tmpPath := true))
               .(bodies := s.bodies[d := Body(s.dls[d].key, [], false)], tmps := s.tmps + {d})
  }

  predicate DlHeaders(s: State, s': State, d: Id) {
    && At(s, d, Created)
    && s' == Put(s, d, s.dls[d].(stage := Reading, tmpFile := true, headersReady := true)).(resps := Wake(s.resps, d))
  }

  /** Some bytes reach the file: a write, a flush, the gzip trailer - or part of one that then fails. */
  predicate DlWrite(s: State, s': State, d: Id, chunk: Bytes) {
    && At(s, d, Reading) && d in s.bodies
    && s' == s.(bodies := s.bodies[d := s.bodies[d].(bytes := s.bodies[d].bytes + chunk)])
  }

  /** publishSize: the size on disk becomes the size promised. */
  predicate DlPublish(s: State, s': State, d: Id) {
    && At(s, d, Reading) && d in s.bodies
    && s' == Put(s, d, s.dls[d].(size := |s.bodies[d].bytes|)).(resps := Wake(s.resps, d))
  }

  predicate DlEof(s: State, s': State, d: Id) {
    && At(s, d, Reading)
    && s' == Put(s, d, s.dls[d].(stage := Drained))
  }

  /** The last publishSize, then bodyComplete = true. */
  predicate DlSeal(s: State, s': State, d: Id) {
    && At(s, d, Drained) && d in s.bodies
    && s' == Put(s, d, s.dls[d].(stage := Sealed, size := |s.bodies[d].bytes|, bodyComplete := true))
               .(resps := Wake(s.resps, d), bodies := s.bodies[d := s.bodies[d].(complete := true)])
  }

  /** Marshalling .meta or renaming the blob fails; so does a rename whose source was unlinked. */
  predicate DlNotStored(s: State, s': State, d: Id) {
    && At(s, d, Sealed)
    && s' == Put(s, d, s.dls[d].(stage := Unwinding, finalErr := Some(Disk)))
  }

  predicate DlRename(s: State, s': State, d: Id) {
    && At(s, d, Sealed) && d in s.tmps
    && s' == Put(s, d, s.dls[d].(stage := Renamed)).(tmps := s.tmps - {d}, blobs := s.blobs[s.dls[d].key := d])
  }

  predicate DlMetaCreate(s: State, s': State, d: Id) {
    && At(s, d, Renamed)
    && s' == Put(s, d, s.dls[d].(stage := MetaCreated)).(metaTmps := s.metaTmps[d := Partial])
  }

  predicate DlMetaWrite(s: State, s': State, d: Id, status: nat) {
    && At(s, d, MetaCreated) && d in s.metaTmps
    && s' == Put(s, d, s.dls[d].(stage := MetaWritten)).(metaTmps := s.metaTmps[d := Full(Meta(status, s.dls[d].size))])
  }

  predicate DlMetaRename(s: State, s': State, d: Id) {
    && At(s, d, MetaWritten) && d in s.metaTmps
    && s' == Put(s, d, s.dls[d].(stage := Unwinding, finalErr := None, tmpPath := false))
               .(metas := s.metas[s.dls[d].key := s.metaTmps[d]], metaTmps := s.metaTmps - {d})
  }

  /** writeFileAtomic fails somewhere and removes its temp file. */
  predicate DlMetaFail(s: State, s': State, d: Id) {
    && d in s.dls && s.dls[d].stage in {Renamed, MetaCreated, MetaWritten}
    && s' == Put(s, d, s.dls[d].(stage := RollingBack)).(metaTmps := s.metaTmps - {d})
  }

  /** os.Remove(blob) unlinks whatever stands under the name by now. */
  predicate DlRollback(s: State, s': State, d: Id) {
    && At(s, d, RollingBack)
    && s' == Put(s, d, s.dls[d].(stage := Unwinding, finalErr := Some(Disk))).(blobs := s.blobs - {s.dls[d].key})
  }

  /** The teardown's first critical section: take the descriptor away, publish the outcome, wake everyone. */
  predicate DlAnnounce(s: State, s': State, d: Id) {
    && At(s, d, Unwinding)
    && var x := s.dls[d];
      s' == Put(s, d, x.(stage := Announced, tmpFile := false, done := true,
                         err := if x.err == None && !x.bodyComplete then x.finalErr else x.err))
              .(resps := Wake(s.resps, d))
  }

  predicate DlDrop(s: State, s': State, d: Id) {
    && At(s, d, Announced)
    && var key := s.dls[d].key;
      s' == Put(s, d, s.dls[d].(stage := Dropped))
              .(inflight := if key in s.inflight && s.inflight[key] == d then s.inflight - {key} else s.inflight)
  }

  predicate DlClean(s: State, s': State, d: Id) {
    && At(s, d, Dropped)
    && s' == Put(s, d, s.dls[d].(stage := Cleaned)).(tmps := if s.dls[d].tmpPath then s.tmps - {d} else s.tmps)
  }

  predicate DlReturn(s: State, s': State, d: Id) {
    && At(s, d, Cleaned) && s.taken > 0
    && s' == Put(s, d, s.dls[d].(stage := Returned)).(taken := s.taken - 1)
  }

  // ------------------------------------------------------------------ the response

  predicate Is(s: State, f: Id, at: Spot) {
    f in s.resps && s.resps[f].at == at
  }

  function End(x: Response, e: Option<Fault>): Response {
    x.(at := Ended(e))
  }

  /** What openCached's miss means: Serve goes on to join, follow reports an unpublished entry. */
  function Miss(x: Response): Response {
    if x.late then End(x, Some(NotPublished)) else x.(at := Joining)
  }

  predicate Arrive(s: State, s': State, f: Id, key: Key) {
    && f !in s.resps
    && s' == PutResp(s, f, Response(key, Lookup, false, None, false, false, None, 0, [], None))
  }

  predicate ReadMeta(s: State, s': State, f: Id, ok: bool) {
    && Is(s, f, Lookup)
    && var x := s.resps[f];
      s' == PutResp(s, f,
        if ok && x.key in s.metas && s.metas[x.key].Full? && 100 <= s.metas[x.key].meta.status <= 999
        then x.(at := HaveMeta(s.metas[x.key].meta)) else Miss(x))
  }

  /** os.Open(blob); an orphaned .meta is removed on the way. */
  predicate OpenBlob(s: State, s': State, f: Id, ok: bool) {
    && f in s.resps && s.resps[f].at.HaveMeta?
    && var x := s.resps[f];
      if x.key !in s.blobs then s' == PutResp(s, f, Miss(x)).(metas := s.metas - {x.key})
      else s' == PutResp(s, f, if ok then x.(at := Opened(x.at.meta, s.blobs[x.key])) else Miss(x))
  }

  predicate StatBlob(s: State, s': State, f: Id, ok: bool) {
    && f in s.resps && s.resps[f].at.Opened? && s.resps[f].at.ino in s.bodies
    && var x := s.resps[f];
      s' == PutResp(s, f,
        if ok && |s.bodies[x.at.ino].bytes| == x.at.meta.size
        then x.(at := Copying, src := Some(x.at.ino), length := Some(x.at.meta.size)) else Miss(x))
  }

  /** io.Copy from the opened blob: a non-empty read that the client takes whole or in part, the end, or an error. */
  predicate Copy(s: State, s': State, f: Id, n: nat, fault: Option<Fault>) {
    && Is(s, f, Copying) && s.resps[f].src.Some? && s.resps[f].src.value in s.bodies
    && var x := s.resps[f];
      var bytes := s.bodies[x.src.value].bytes;
      && x.off + n <= |bytes|
      && (n == 0 && fault == None ==> x.off == |bytes|)
      && s' == PutResp(s, f, (if fault.Some? || n == 0 then End(x, fault) else x)
                               .(off := x.off + n, sent := x.sent + bytes[x.off..x.off + n]))
  }

  /** Serve's critical section: join the entry in flight unless it is done, else start a download if a slot is free. */
  predicate Join(s: State, s': State, f: Id) {
    && Is(s, f, Joining)
    && var x := s.resps[f];
      if x.key in s.inflight && s.inflight[x.key] in s.dls && !s.dls[s.inflight[x.key]].done then
        s' == PutResp(s, f, x.(at := Registering, dl := Some(s.inflight[x.key])))
      else if s.taken < MAX_CONCURRENT_DOWNLOADS then
        s' == PutResp(Put(s, s.next, NewDownload(x.key)), f, x.(at := Registering, dl := Some(s.next)))
                .(inflight := s.inflight[x.key := s.next], taken := s.taken + 1, next := s.next + 1)
      else s' == PutResp(s, f, x.(at := TurnedAway))
  }

  predicate Joined(s: State, f: Id) {
    f in s.resps && s.resps[f].dl.Some? && s.resps[f].dl.value in s.dls
  }

  /** context.AfterFunc: on a context that is already cancelled the callback is due at once. */
  predicate Register(s: State, s': State, f: Id) {
    && Is(s, f, Registering)
    && s' == PutResp(s, f, s.resps[f].(at := Waiting(false), callback := s.resps[f].cancelled))
  }

  predicate Registered(at: Spot) {
    at.Waiting? || at.Top? || at.Pread? || at.Dry? || at.AtHead? || at.Woken?
  }

  predicate Cancel(s: State, s': State, f: Id) {
    && f in s.resps && !s.resps[f].cancelled
    && s' == PutResp(s, f, s.resps[f].(cancelled := true, callback := Registered(s.resps[f].at)))
  }

  predicate RunCallback(s: State, s': State, f: Id) {
    && Joined(s, f) && s.resps[f].callback
    && s' == s.(resps := Wake(s.resps[f := s.resps[f].(callback := false)], s.resps[f].dl.value))
  }

  /** follow, with the entry's mutex held: park, or decide what to serve from. */
  predicate Follow(s: State, s': State, f: Id, dupOk: bool) {
    && Is(s, f, Waiting(false)) && Joined(s, f)
    && var x, e := s.resps[f], s.dls[s.resps[f].dl.value];
      s' == PutResp(s, f,
        if !e.headersReady && !e.done && !x.cancelled then x.(at := Waiting(true))
        else if e.err.Some? then End(x, e.err)
        else if !e.headersReady then End(x, Some(if x.cancelled then Cancelled else NoHeaders))
        else if !e.tmpFile then x.(at := Lookup, late := true)
        else if dupOk then x.(at := Top, src := x.dl)
        else End(x, Some(Disk)))
  }

  predicate ReadTop(s: State, s': State, f: Id) {
    && Is(s, f, Top) && Joined(s, f)
    && var x, e := s.resps[f], s.dls[s.resps[f].dl.value];
      s' == PutResp(s, f, x.(at := if e.size > x.off then Pread(e.size - x.off) else AtHead(false)))
  }

  /** ReadAt within the published range, and the client's write of what it gave: all of it (no fault) or a part. */
  predicate ReadChunk(s: State, s': State, f: Id, n: nat, fault: Option<Fault>) {
    && f in s.resps && s.resps[f].at.Pread? && s.resps[f].src.Some? && s.resps[f].src.value in s.bodies
    && var x := s.resps[f];
      var bytes := s.bodies[x.src.value].bytes;
      && n <= x.at.avail && x.off + n <= |bytes|
      && s' == PutResp(s, f, (if fault.Some? then End(x, fault) else if n == 0 then x.(at := Dry) else x.(at := Top))
                               .(off := x.off + n, sent := x.sent + bytes[x.off..x.off + n]))
  }

  predicate CheckDry(s: State, s': State, f: Id) {
    && Is(s, f, Dry) && Joined(s, f)
    && var x, e := s.resps[f], s.dls[s.resps[f].dl.value];
      s' == PutResp(s, f,
        if e.err.Some? then End(x, e.err)
        else if e.done then End(x, Some(UnexpectedEof))
        else if x.cancelled then End(x, Some(Cancelled))
        else x.(at := Top))
  }

  /** Read at the write head, with the entry's mutex held: park, or take a look at how the download stands. */
  predicate Catch(s: State, s': State, f: Id) {
    && Is(s, f, AtHead(false)) && Joined(s, f)
    && var x, e := s.resps[f], s.dls[s.resps[f].dl.value];
      s' == PutResp(s, f,
        x.(at := if e.size <= x.off && !e.done && !x.cancelled then AtHead(true)
                 else Woken(e.done && e.size <= x.off, e.err)))
  }

  predicate Conclude(s: State, s': State, f: Id) {
    && f in s.resps && s.resps[f].at.Woken?
    && var x := s.resps[f];
      s' == PutResp(s, f,
        if x.cancelled then End(x, Some(Cancelled))
        else if x.at.finished then End(x, x.at.derr)
        else x.(at := Top))
  }

  // ------------------------------------------------------------------ the surroundings

  /** The evictor, or another process on the same volume, unlinks a name. */
  predicate Unlink(s: State, s': State, keys: set<Key>, metas: set<Key>, tmps: set<Id>, metaTmps: set<Id>) {
    s' == s.(blobs := s.blobs - keys, metas := s.metas - metas, tmps := s.tmps - tmps,
      metaTmps := s.metaTmps - metaTmps)
  }

  predicate Kill(s: State, s': State) {
    s' == s.(dls := map[], resps := map[], inflight := map[], taken := 0)
  }

  datatype DownloadStep =
    | Fail(e: Fault) | Create | Headers | Write(chunk: Bytes) | Publish | Eof | Seal
    | NotStored | Rename | MetaCreate | MetaWrite(status: nat) | MetaRename | MetaFail | Rollback
    | Announce | Drop | Clean | Return

  datatype ResponseStep =
    | Arrives(key: Key) | ReadsMeta(ok: bool) | OpensBlob(ok: bool) | StatsBlob(ok: bool)
      | Copies(n: nat, fault: Option<Fault>)
    | Joins | Registers | IsCancelled | CallbackRuns | Follows(dupOk: bool)
    | ReadsTop | ReadsChunk(n: nat, fault: Option<Fault>) | ChecksDry | Catches | Concludes

  datatype Step =
    | OfDownload(d: Id, dl: DownloadStep)
    | OfResponse(f: Id, resp: ResponseStep)
    | OfEvictor(keys: set<Key>, metas: set<Key>, tmps: set<Id>, metaTmps: set<Id>)
    | ProcessKilled

  predicate DownloadNext(s: State, s': State, d: Id, a: DownloadStep) {
    match a
    case Fail(e) => DlFail(s, s', d, e)
    case Create => DlCreate(s, s', d)
    case Headers => DlHeaders(s, s', d)
    case Write(chunk) => DlWrite(s, s', d, chunk)
    case Publish => DlPublish(s, s', d)
    case Eof => DlEof(s, s', d)
    case Seal => DlSeal(s, s', d)
    case NotStored => DlNotStored(s, s', d)
    case Rename => DlRename(s, s', d)
    case MetaCreate => DlMetaCreate(s, s', d)
    case MetaWrite(status) => DlMetaWrite(s, s', d, status)
    case MetaRename => DlMetaRename(s, s', d)
    case MetaFail => DlMetaFail(s, s', d)
    case Rollback => DlRollback(s, s', d)
    case Announce => DlAnnounce(s, s', d)
    case Drop => DlDrop(s, s', d)
    case Clean => DlClean(s, s', d)
    case Return => DlReturn(s, s', d)
  }

  predicate ResponseNext(s: State, s': State, f: Id, a: ResponseStep) {
    match a
    case Arrives(key) => Arrive(s, s', f, key)
    case ReadsMeta(ok) => ReadMeta(s, s', f, ok)
    case OpensBlob(ok) => OpenBlob(s, s', f, ok)
    case StatsBlob(ok) => StatBlob(s, s', f, ok)
    case Copies(n, fault) => Copy(s, s', f, n, fault)
    case Joins => Join(s, s', f)
    case Registers => Register(s, s', f)
    case IsCancelled => Cancel(s, s', f)
    case CallbackRuns => RunCallback(s, s', f)
    case Follows(dupOk) => Follow(s, s', f, dupOk)
    case ReadsTop => ReadTop(s, s', f)
    case ReadsChunk(n, fault) => ReadChunk(s, s', f, n, fault)
    case ChecksDry => CheckDry(s, s', f)
    case Catches => Catch(s, s', f)
    case Concludes => Conclude(s, s', f)
  }

  predicate Next(s: State, s': State, a: Step) {
    match a
    case OfDownload(d, dl) => DownloadNext(s, s', d, dl)
    case OfResponse(f, resp) => ResponseNext(s, s', f, resp)
    case OfEvictor(keys, metas, tmps, metaTmps) => Unlink(s, s', keys, metas, tmps, metaTmps)
    case ProcessKilled => Kill(s, s')
  }

  /** A run: a sequence of states from an empty cache, each a step after the one before. */
  ghost predicate IsRun(run: seq<State>) {
    && |run| > 0 && Init(run[0])
    && forall i :: 0 <= i < |run| - 1 ==> StepAt(run, i)
  }

  ghost predicate CanStep(s: State, s': State) {
    exists a :: Next(s, s', a)
  }

  ghost predicate StepAt(run: seq<State>, i: nat)
    requires i + 1 < |run|
  {
    CanStep(run[i], run[i + 1])
  }

  /** A run with the step taken at each moment. */
  ghost predicate Labelled(run: seq<State>, labels: seq<Step>) {
    && |run| == |labels| + 1 && Init(run[0])
    && forall i :: 0 <= i < |labels| ==> Next(run[i], run[i + 1], labels[i])
  }

  lemma LabelledIsRun(run: seq<State>, labels: seq<Step>)
    requires Labelled(run, labels)
    ensures IsRun(run)
  {
    forall i | 0 <= i < |run| - 1 ensures StepAt(run, i) {
      assert Next(run[i], run[i + 1], labels[i]);
    }
  }
}
