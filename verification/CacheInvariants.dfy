/** What every step of the streaming cache keeps. */
module CacheInvariants {
  import opened CacheState
  import opened Options

  // ------------------------------------------------------------------ one download

  predicate Finished(stage: Stage) {
    stage.Announced? || stage.Dropped? || stage.Cleaned? || stage.Returned?
  }

  predicate Storing(stage: Stage) {
    stage.Sealed? || stage.Renamed? || stage.MetaCreated? || stage.MetaWritten? || stage.RollingBack?
  }

  /** How a download's stage goes with its entry's fields: in particular, done without an error means the
      body was complete, and no exit before that point leaves the error empty. */
  predicate Shape(x: Download) {
    && (x.done <==> Finished(x.stage))
    && (x.stage.Fetching? || x.stage.Created? ==> !x.headersReady && !x.bodyComplete)
    && (x.stage.Reading? || x.stage.Drained? ==> x.headersReady && !x.bodyComplete)
    && (Storing(x.stage) ==> x.bodyComplete)
    && (x.stage.Unwinding? && !x.bodyComplete ==> x.finalErr.Some?)
    && (x.bodyComplete ==> x.headersReady)
    && (!x.done ==> x.err == None && x.tmpFile == x.headersReady)
    && (x.done ==> !x.tmpFile && (x.err.Some? <==> !x.bodyComplete))
  }

  /** What is promised through `size` is in the file; all of it, once the body is complete. */
  predicate Backed(s: State, d: Id)
    requires d in s.dls
  {
    var x := s.dls[d];
    && d < s.next
    && (d in s.bodies ==>
      && s.bodies[d].key == x.key && s.bodies[d].complete == x.bodyComplete
      && x.size <= |s.bodies[d].bytes| && (x.bodyComplete ==> x.size == |s.bodies[d].bytes|)
      && !x.stage.Fetching?)
    && (d !in s.bodies ==> x.size == 0 && !x.headersReady && !x.stage.Created?)
  }

  predicate Listed(s: State, d: Id)
    requires d in s.dls
  {
    var x := s.dls[d];
    !x.done ==> x.key in s.inflight && s.inflight[x.key] == d
  }

  predicate DlOk(s: State, d: Id)
    requires d in s.dls
  {
    Shape(s.dls[d]) && Backed(s, d) && Listed(s, d)
  }

  ghost predicate DownloadsOk(s: State) {
    forall d :: d in s.dls ==> DlOk(s, d)
  }

  // ------------------------------------------------------------------ inflight, slots, disk

  ghost predicate IndexOk(s: State) {
    forall k :: k in s.inflight ==> s.inflight[k] in s.dls && s.dls[s.inflight[k]].key == k
  }

  /** The downloads that have not returned. */
  function Running(dls: map<Id, Download>): set<Id> {
    set d | d in dls && !dls[d].stage.Returned?
  }

  predicate SlotsOk(s: State) {
    s.taken == |Running(s.dls)| <= MAX_CONCURRENT_DOWNLOADS
  }

  predicate WholeBlob(s: State, key: Key, ino: Id) {
    ino in s.bodies && s.bodies[ino].key == key && s.bodies[ino].complete
  }

  /** A final name always stands for a whole file. */
  ghost predicate DiskOk(s: State) {
    && (forall d :: d in s.bodies ==> d < s.next)
    && (forall k :: k in s.blobs ==> WholeBlob(s, k, s.blobs[k]))
    && (forall k :: k in s.metas ==> s.metas[k].Full?)
    && (forall d :: d in s.dls && s.dls[d].stage.MetaWritten? && d in s.metaTmps ==> s.metaTmps[d].Full?)
  }

  // ------------------------------------------------------------------ one response

  /** `sent` is the first `off` bytes of the inode read from, an inode of the key asked for. */
  predicate Carries(s: State, x: Response) {
    && x.off == |x.sent|
    && (x.src == None ==> x.sent == [] && x.length == None)
    && (x.src.Some? ==>
      && x.src.value in s.bodies && s.bodies[x.src.value].key == x.key
      && x.off <= |s.bodies[x.src.value].bytes| && x.sent == s.bodies[x.src.value].bytes[..x.off]
      && (x.length.Some? ==> s.bodies[x.src.value].complete && x.length.value == |s.bodies[x.src.value].bytes|))
  }

  predicate Follower(s: State, x: Response) {
    x.dl.Some? && x.dl.value in s.dls && s.dls[x.dl.value].key == x.key
  }

  predicate ReadingSpot(at: Spot) {
    at.Top? || at.Pread? || at.Dry? || at.AtHead? || at.Woken?
  }

  /** A parked response still has to wait, or is about to be woken by its cancellation callback. */
  predicate MayPark(s: State, x: Response)
    requires Follower(s, x)
  {
    var e := s.dls[x.dl.value];
    && (x.at == Waiting(true) ==> !e.headersReady && !e.done && (x.cancelled ==> x.callback))
    && (x.at == AtHead(true) ==> e.size <= x.off && !e.done && (x.cancelled ==> x.callback))
  }

  predicate WokenOk(e: Download, x: Response) {
    x.at.Woken? && x.at.finished ==> e.done && e.size == x.off && x.at.derr == e.err
  }

  predicate Streams(s: State, x: Response)
    requires Follower(s, x)
  {
    var e := s.dls[x.dl.value];
    && x.src == x.dl && x.length == None && e.headersReady
    && x.off <= e.size
    && (x.at.Pread? ==> x.off + x.at.avail <= e.size)
    && WokenOk(e, x)
  }

  predicate RespOk(s: State, f: Id)
    requires f in s.resps
  {
    var x := s.resps[f];
    && Carries(s, x)
    && (x.at.Lookup? || x.at.HaveMeta? || x.at.Opened? || x.at.Joining? || x.at.Registering? || x.at.Waiting?
        || x.at.TurnedAway?
        ==> x.src == None)
    && (x.at.Opened? ==> WholeBlob(s, x.key, x.at.ino))
    && (x.at.Registering? || x.at.Waiting? || ReadingSpot(x.at) ==> Follower(s, x) && MayPark(s, x))
    && (ReadingSpot(x.at) ==> Streams(s, x))
    && (x.at.Copying? ==> x.src.Some? && x.length.Some?)
    && (x.at == Ended(None) ==>
        x.src.Some? && WholeBlob(s, x.key, x.src.value) && x.sent == s.bodies[x.src.value].bytes)
  }

  ghost predicate ResponsesOk(s: State) {
    forall f :: f in s.resps ==> RespOk(s, f)
  }

  ghost predicate Inv(s: State) {
    DownloadsOk(s) && IndexOk(s) && SlotsOk(s) && DiskOk(s) && ResponsesOk(s)
  }

  // ------------------------------------------------------------------ how one step may change things

  /** Published promises are kept: sizes and flags only grow, and a finished entry does not change. */
  predicate EntryEvolves(e: Download, e': Download) {
    && e'.key == e.key && e.size <= e'.size
    && (e.headersReady ==> e'.headersReady)
    && (e.done ==> e'.done && e'.err == e.err && e'.size == e.size)
  }

  /** A body only grows, and not at all once it is complete. */
  predicate BodyEvolves(b: Body, b': Body) {
    && b'.key == b.key && b.bytes <= b'.bytes
    && (b.complete ==> b' == b)
  }

  ghost predicate BodiesEvolve(s: State, s': State) {
    forall d :: d in s.bodies ==> d in s'.bodies && BodyEvolves(s.bodies[d], s'.bodies[d])
  }

  ghost predicate EntriesEvolve(s: State, s': State) {
    forall d :: d in s.dls ==> d in s'.dls && EntryEvolves(s.dls[d], s'.dls[d])
  }

  lemma CarriesOn(s: State, s': State, x: Response)
    requires Carries(s, x) && BodiesEvolve(s, s')
    ensures Carries(s', x)
  {
    if x.src.Some? {
      var b, b' := s.bodies[x.src.value].bytes, s'.bodies[x.src.value].bytes;
      assert BodyEvolves(s.bodies[x.src.value], s'.bodies[x.src.value]);
      assert b[..x.off] == b'[..x.off];
    }
  }

  /** A response that a step does not touch, or only wakes, stays as it should be. */
  lemma Bystander(s: State, s': State, f: Id)
    requires f in s.resps && RespOk(s, f) && EntriesEvolve(s, s') && BodiesEvolve(s, s')
    requires f in s'.resps
    requires s'.resps[f] == s.resps[f] || s'.resps[f] == s.resps[f].(at := Unpark(s.resps[f].at))
    requires Parked(s'.resps[f].at) ==> s.resps[f].dl.Some? ==>
      var d := s.resps[f].dl.value; d in s.dls ==>
        && (s'.dls[d].headersReady ==> s.dls[d].headersReady)
        && s'.dls[d].size == s.dls[d].size
        && (s'.dls[d].done ==> s.dls[d].done)
    ensures RespOk(s', f)
  {
    var x := s.resps[f];
    CarriesOn(s, s', x);
    if x.dl.Some? && x.dl.value in s.dls {
      assert EntryEvolves(s.dls[x.dl.value], s'.dls[x.dl.value]);
    }
    if x.at.Opened? {
      assert BodyEvolves(s.bodies[x.at.ino], s'.bodies[x.at.ino]);
    }
    if x.at == Ended(None) {
      assert BodyEvolves(s.bodies[x.src.value], s'.bodies[x.src.value]);
    }
  }

  /** A download's step that broadcasts, seen from the responses. */
  lemma ResponsesWake(s: State, s': State, d: Id)
    requires ResponsesOk(s) && EntriesEvolve(s, s') && BodiesEvolve(s, s')
    requires forall o :: o in s.dls && o != d ==> s'.dls[o] == s.dls[o]
    requires s'.resps == Wake(s.resps, d)
    ensures ResponsesOk(s')
  {
    forall f | f in s'.resps ensures RespOk(s', f) {
      assert f in s.resps && RespOk(s, f);
      Bystander(s, s', f);
    }
  }

  /** One that does not broadcast, because nothing a parked response waits for has changed. */
  lemma ResponsesSleep(s: State, s': State, d: Id)
    requires ResponsesOk(s) && EntriesEvolve(s, s') && BodiesEvolve(s, s') && d in s.dls
    requires forall o :: o in s.dls && o != d ==> s'.dls[o] == s.dls[o]
    requires s'.resps == s.resps && s'.dls[d].headersReady == s.dls[d].headersReady
    requires s'.dls[d].size == s.dls[d].size && s'.dls[d].done == s.dls[d].done
    ensures ResponsesOk(s')
  {
    forall f | f in s'.resps ensures RespOk(s', f) {
      Bystander(s, s', f);
    }
  }
}
