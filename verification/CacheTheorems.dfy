/** What the streaming cache promises, over every run: any number of downloads and followers, joining and
    leaving at any time, an evictor unlinking anything at any time, the process killed between any two steps. */
module CacheTheorems {
  import opened CacheFollowers
  import opened CacheInvariants
  import opened CacheState
  import opened CacheSteps
  import opened Options

  /** What a response has been sent is what one download of its key wrote first. */
  ghost predicate SentPrefix(s: State, x: Response) {
    x.sent == [] ||
    exists d :: d in s.bodies && s.bodies[d].key == x.key && x.sent <= s.bodies[d].bytes
  }

  /** It has been sent all that a download of its key stored, a download whose body reached its end. */
  ghost predicate SentWhole(s: State, x: Response) {
    exists d :: WholeBlob(s, x.key, d) && x.sent == s.bodies[d].bytes
  }

  /** A response that ends without an error carried exactly the whole stored body of one download of its
      key; at every other moment, and at every other ending, what it carried is a prefix of one. */
  lemma WholeOrFaulty(run: seq<State>, i: nat, f: Id)
    requires IsRun(run) && i < |run| && f in run[i].resps
    ensures var s, x := run[i], run[i].resps[f];
      SentPrefix(s, x) && (x.at == Ended(None) ==> SentWhole(s, x))
  {
    RunKeeps(run, i);
    var s, x := run[i], run[i].resps[f];
    assert RespOk(s, f);
    if x.src.Some? {
      var d := x.src.value;
      assert x.sent <= s.bodies[d].bytes;
      if x.at == Ended(None) {
        assert WholeBlob(s, x.key, d);
      }
    }
  }

  /** A hit: whatever was evicted, refreshed, half-written or killed meanwhile, an openCached that succeeds has
      opened the complete body of a download of that key; the content-length sent is that body's length, and
      a hit that ends without an error sent exactly that many bytes. */
  lemma HitIsWhole(run: seq<State>, i: nat, f: Id)
    requires IsRun(run) && i < |run| && f in run[i].resps
    ensures var s, x := run[i], run[i].resps[f];
      && (x.at.Opened? ==> WholeBlob(s, x.key, x.at.ino))
      && (x.at.Copying? ==> x.length.Some?)
      && (x.length.Some? ==> x.src.Some? && WholeBlob(s, x.key, x.src.value)
                             && x.length.value == |s.bodies[x.src.value].bytes|)
      && (x.length.Some? && x.at == Ended(None) ==> |x.sent| == x.length.value)
  {
    RunKeeps(run, i);
    assert RespOk(run[i], f);
  }

  /** A final name never stands for anything but a whole file: the blob for the complete body of a download of
      that key, the .meta for a fully written document. */
  lemma FinalNamesAreWhole(run: seq<State>, i: nat, key: Key)
    requires IsRun(run) && i < |run|
    ensures key in run[i].blobs ==> WholeBlob(run[i], key, run[i].blobs[key])
    ensures key in run[i].metas ==> run[i].metas[key].Full?
  {
    RunKeeps(run, i);
  }

  /** At most one download per key is not done, and it is the one in flight, so a teardown has never removed
      a successor; the slots taken are exactly the downloads that have not returned, never above the limit. */
  lemma OneDownloadPerKey(run: seq<State>, i: nat, d: Id, e: Id)
    requires IsRun(run) && i < |run| && d in run[i].dls && e in run[i].dls
    ensures var s := run[i];
      && (!s.dls[d].done ==> s.dls[d].key in s.inflight && s.inflight[s.dls[d].key] == d)
      && (!s.dls[d].done && !s.dls[e].done && s.dls[d].key == s.dls[e].key ==> d == e)
      && s.taken == |Running(s.dls)| <= 32
  {
    RunKeeps(run, i);
    assert DlOk(run[i], d) && DlOk(run[i], e);
  }

  /** A response turned away for want of a slot has not been touched, at any moment of any run. */
  lemma BusyIsUntouched(run: seq<State>, i: nat, f: Id)
    requires IsRun(run) && i < |run| && f in run[i].resps && run[i].resps[f].at.TurnedAway?
    ensures var x := run[i].resps[f]; x.sent == [] && x.off == 0 && x.src == None && x.length == None
  {
    RunKeeps(run, i);
    assert RespOk(run[i], f);
  }

  /** Turning it away starts and publishes nothing, and happens only with every slot taken and no live download of
      its key to join. */
  lemma BusyMeansFull(run: seq<State>, i: nat, f: Id, s': State)
    requires IsRun(run) && i < |run| && Join(run[i], s', f) && s'.resps[f].at.TurnedAway?
    ensures var s := run[i];
      && s' == s.(resps := s.resps[f := s.resps[f].(at := TurnedAway)])
      && |Running(s.dls)| == 32
      && forall d :: d in s.dls && s.dls[d].key == s.resps[f].key ==> s.dls[d].done
  {
    RunKeeps(run, i);
    forall d | d in run[i].dls && run[i].dls[d].key == run[i].resps[f].key ensures run[i].dls[d].done {
      assert DlOk(run[i], d);
    }
  }

  /** An entry that is done has an error exactly when its body was not complete; without one, the size it
      announced is the length of the complete body. Before that, it never promises more than the file holds. */
  lemma DoneMeansComplete(run: seq<State>, i: nat, d: Id)
    requires IsRun(run) && i < |run| && d in run[i].dls
    ensures var s, e := run[i], run[i].dls[d];
      && (d in s.bodies ==> e.size <= |s.bodies[d].bytes|)
      && (d !in s.bodies ==> e.size == 0)
      && (e.done && e.err == None ==> WholeBlob(s, e.key, d) && e.size == |s.bodies[d].bytes|)
      && (e.done && e.err.Some? ==> !(d in s.bodies && s.bodies[d].complete))
  {
    RunKeeps(run, i);
    assert DlOk(run[i], d);
  }

  // ------------------------------------------------------------------ waiting

  /** No lost wakeup. A response parked on the condition variable still satisfies its wait condition, or has a
      cancellation callback pending; so once the download is done nobody stays parked on it. And the branch that
      finds neither headers nor an error after the download is never taken by a client that is still there. */
  lemma NoLostWakeup(run: seq<State>, i: nat, f: Id)
    requires IsRun(run) && i < |run| && Joined(run[i], f)
    ensures var s, x := run[i], run[i].resps[f]; var e := s.dls[x.dl.value];
      && (x.at == Waiting(true) ==> !e.headersReady && (!x.cancelled || x.callback))
      && (x.at == AtHead(true) ==> e.size <= x.off && (!x.cancelled || x.callback))
      && (Parked(x.at) ==> !e.done)
      && (e.done && !e.headersReady ==> e.err.Some?)
  {
    RunKeeps(run, i);
    assert RespOk(run[i], f) && DlOk(run[i], run[i].resps[f].dl.value);
  }

  /** A step the response takes itself: not its client leaving, nor the callback that follows, nor its arrival. */
  predicate OwnMove(a: ResponseStep) {
    !a.IsCancelled? && !a.CallbackRuns? && !a.Arrives?
  }

  ghost predicate ResponseMoves(s: State, f: Id) {
    exists s', a :: OwnMove(a) && ResponseNext(s, s', f, a)
  }

  /** Following a download, from joining it on. */
  predicate FollowingSpot(at: Spot) {
    at.Registering? || at.Waiting? || ReadingSpot(at)
  }

  /** How many of its own steps a follower can still take once its download is done. */
  function StepsLeft(s: State, x: Response): nat
    requires Follower(s, x) && FollowingSpot(x.at) && x.off <= s.dls[x.dl.value].size
  {
    2 * (s.dls[x.dl.value].size - x.off) +
    match x.at
    case Registering => 8
    case Waiting(_) => 7
    case Woken(finished, _) => if finished then 1 else 5
    case Top => 4
    case Pread(_) => 3
    case AtHead(_) => if s.dls[x.dl.value].size > x.off then 6 else 2
    case _ => 0
  }

  /** It has ended, or gone on to the finished blob, or is following still with fewer steps left. */
  predicate WoundDown(s: State, x: Response, left: nat) {
    || x.at.Ended?
    || (x.at.Lookup? && x.late)
    || (Follower(s, x) && FollowingSpot(x.at) && x.off <= s.dls[x.dl.value].size && StepsLeft(s, x) < left)
  }

  /** Once the download is done, a follower is never parked and always has a step of its own, and each of them ends
      the response, sends it to the finished blob, or leaves it strictly fewer: so it is over after at most twice what
      it has left to read, and eight. It cannot spin on a file that is shorter than announced, nor wait for a broadcast
      that has been. */
  lemma FollowerWindsDown(run: seq<State>, i: nat, f: Id, s': State, a: ResponseStep)
    requires IsRun(run) && i < |run| && Joined(run[i], f)
    requires FollowingSpot(run[i].resps[f].at) && run[i].dls[run[i].resps[f].dl.value].done
    ensures RespOk(run[i], f) && !Parked(run[i].resps[f].at) && ResponseMoves(run[i], f)
    ensures Follower(run[i], run[i].resps[f]) && run[i].resps[f].off <= run[i].dls[run[i].resps[f].dl.value].size
    ensures OwnMove(a) && ResponseNext(run[i], s', f, a) ==>
              f in s'.resps && WoundDown(s', s'.resps[f], StepsLeft(run[i], run[i].resps[f]))
  {
    RunKeeps(run, i);
    SoundInInv(run[i], f);
    FollowMoves(run[i], f);
    if OwnMove(a) && ResponseNext(run[i], s', f, a) {
      OneStepDown(run[i], s', f, a);
    }
  }

  lemma OneStepDown(s: State, s': State, f: Id, a: ResponseStep)
    requires Sound(s, f) && FollowingSpot(s.resps[f].at) && s.dls[s.resps[f].dl.value].done
    requires ResponseNext(s, s', f, a) && OwnMove(a)
    ensures f in s'.resps && WoundDown(s', s'.resps[f], StepsLeft(s, s.resps[f]))
  {
    if s.resps[f].at.Registering? || s.resps[f].at.Waiting? {
      OneStepIn(s, s', f, a);
    } else {
      OneStepOn(s, s', f, a);
    }
  }

  lemma OneStepIn(s: State, s': State, f: Id, a: ResponseStep)
    requires Sound(s, f) && (s.resps[f].at.Registering? || s.resps[f].at.Waiting?) && s.dls[s.resps[f].dl.value].done
    requires ResponseNext(s, s', f, a) && OwnMove(a)
    ensures f in s'.resps && WoundDown(s', s'.resps[f], StepsLeft(s, s.resps[f]))
  {
    if a.Follows? {
      assert s.resps[f].at == Waiting(false);
    } else {
      assert a.Registers?;
    }
  }

  lemma ReadsOn(s: State, s': State, f: Id, a: ResponseStep)
    requires Sound(s, f) && ReadingSpot(s.resps[f].at) && s.dls[s.resps[f].dl.value].done
    requires ResponseNext(s, s', f, a) && (a.ReadsTop? || a.ReadsChunk?)
    ensures f in s'.resps && WoundDown(s', s'.resps[f], StepsLeft(s, s.resps[f]))
  {
  }

  lemma ConcludesOn(s: State, s': State, f: Id, a: ResponseStep)
    requires Sound(s, f) && ReadingSpot(s.resps[f].at) && s.dls[s.resps[f].dl.value].done
    requires ResponseNext(s, s', f, a) && (a.ChecksDry? || a.Catches? || a.Concludes?)
    ensures f in s'.resps && WoundDown(s', s'.resps[f], StepsLeft(s, s.resps[f]))
  {
  }

  /** Only these steps are taken while reading. */
  lemma ReadingSteps(s: State, s': State, f: Id, a: ResponseStep)
    requires f in s.resps && ReadingSpot(s.resps[f].at) && ResponseNext(s, s', f, a) && OwnMove(a)
    ensures a.ReadsTop? || a.ReadsChunk? || a.ChecksDry? || a.Catches? || a.Concludes?
  {
  }

  lemma OneStepOn(s: State, s': State, f: Id, a: ResponseStep)
    requires Sound(s, f) && ReadingSpot(s.resps[f].at) && s.dls[s.resps[f].dl.value].done
    requires ResponseNext(s, s', f, a) && OwnMove(a)
    ensures f in s'.resps && WoundDown(s', s'.resps[f], StepsLeft(s, s.resps[f]))
  {
    ReadingSteps(s, s', f, a);
    if a.ReadsTop? || a.ReadsChunk? {
      ReadsOn(s, s', f, a);
    } else {
      ConcludesOn(s, s', f, a);
    }
  }

  lemma FollowMoves(s: State, f: Id)
    requires Sound(s, f) && !Parked(s.resps[f].at)
    requires FollowingSpot(s.resps[f].at)
    ensures ResponseMoves(s, f)
  {
    var x := s.resps[f];
    var e := s.dls[x.dl.value];
    if x.at.Registering? {
      assert ResponseNext(s, PutResp(s, f, x.(at := Waiting(false), callback := x.cancelled)), f, Registers);
    } else if x.at.Waiting? {
      var y := if !e.headersReady && !e.done && !x.cancelled then x.(at := Waiting(true))
               else if e.err.Some? then End(x, e.err)
               else if !e.headersReady then End(x, Some(if x.cancelled then Cancelled else NoHeaders))
               else if !e.tmpFile then x.(at := Lookup, late := true)
               else x.(at := Top, src := x.dl);
      assert ResponseNext(s, PutResp(s, f, y), f, Follows(true));
    } else if x.at.Top? {
      assert ResponseNext(s, PutResp(s, f, x.(at := if e.size > x.off then Pread(e.size - x.off) else AtHead(false))),
        f, ReadsTop);
    } else if x.at.Pread? {
      assert s.bodies[x.src.value].bytes[x.off..x.off + 0] == [];
      assert x.(at := Dry).(off := x.off + 0, sent := x.sent + []) == x.(at := Dry);
      assert ResponseNext(s, PutResp(s, f, x.(at := Dry)), f, ReadsChunk(0, None));
    } else {
      HeadMoves(s, f);
    }
  }

  lemma HeadMoves(s: State, f: Id)
    requires Sound(s, f) && (s.resps[f].at.Dry? || s.resps[f].at == AtHead(false) || s.resps[f].at.Woken?)
    ensures ResponseMoves(s, f)
  {
    var x := s.resps[f];
    var e := s.dls[x.dl.value];
    if x.at.Dry? {
      var y := if e.err.Some? then End(x, e.err) else if e.done then End(x, Some(UnexpectedEof))
               else if x.cancelled then End(x, Some(Cancelled)) else x.(at := Top);
      assert ResponseNext(s, PutResp(s, f, y), f, ChecksDry);
    } else if x.at.AtHead? {
      var y := x.(at := if e.size <= x.off && !e.done && !x.cancelled then AtHead(true)
        else Woken(e.done && e.size <= x.off, e.err));
      assert ResponseNext(s, PutResp(s, f, y), f, Catches);
    } else {
      var y := if x.cancelled then End(x, Some(Cancelled)) else if x.at.finished then End(x, x.at.derr)
        else x.(at := Top);
      assert ResponseNext(s, PutResp(s, f, y), f, Concludes);
    }
  }

  /** Serving a finished blob: from looking for it to copying it. */
  predicate HitSpot(at: Spot) {
    at.Lookup? || at.HaveMeta? || at.Opened? || at.Copying?
  }

  function Phase(at: Spot): nat {
    match at
    case Lookup => 3
    case HaveMeta(_) => 2
    case Opened(_, _) => 1
    case _ => 0
  }

  /** It has ended, or missed for the first time, or is nearer to the copy, or has copied more of what it opened. */
  predicate CopiedOn(s: State, x: Response, x': Response) {
    || x'.at.Ended?
    || (x'.at.Joining? && !x.late)
    || (HitSpot(x'.at) && Phase(x'.at) < Phase(x.at))
    || (x.at.Copying? && x'.at.Copying? && x'.src == x.src && x.src.Some? && x.src.value in s.bodies
        && x.off < x'.off <= |s.bodies[x.src.value].bytes|)
  }

  /** A response that serves from a finished blob always has a step of its own, and each of them takes it nearer to
      its end; with FollowerWindsDown, so does every response once its download is done. */
  lemma HitWindsDown(run: seq<State>, i: nat, f: Id, s': State, a: ResponseStep)
    requires IsRun(run) && i < |run| && f in run[i].resps && HitSpot(run[i].resps[f].at)
    ensures ResponseMoves(run[i], f)
    ensures OwnMove(a) && ResponseNext(run[i], s', f, a) ==>
              f in s'.resps && CopiedOn(run[i], run[i].resps[f], s'.resps[f])
  {
    RunKeeps(run, i);
    SoundInInv(run[i], f);
    HitMoves(run[i], f);
    if OwnMove(a) && ResponseNext(run[i], s', f, a) {
      HitStepOn(run[i], s', f, a);
    }
  }

  lemma LooksOn(s: State, s': State, f: Id, ok: bool)
    requires Sound(s, f) && ReadMeta(s, s', f, ok)
    ensures f in s'.resps && CopiedOn(s, s.resps[f], s'.resps[f])
  {
  }

  lemma OpensOn(s: State, s': State, f: Id, ok: bool)
    requires Sound(s, f) && OpenBlob(s, s', f, ok)
    ensures f in s'.resps && CopiedOn(s, s.resps[f], s'.resps[f])
  {
    var x := s.resps[f];
    if ok && x.key in s.blobs {
      assert s'.resps[f] == x.(at := Opened(x.at.meta, s.blobs[x.key]));
    } else {
      assert s'.resps[f] == Miss(x);
    }
  }

  lemma StatsOn(s: State, s': State, f: Id, a: ResponseStep)
    requires Sound(s, f) && ResponseNext(s, s', f, a) && (a.StatsBlob? || a.Copies?)
    ensures f in s'.resps && CopiedOn(s, s.resps[f], s'.resps[f])
  {
  }

  /** Only these four steps are taken there. */
  lemma HitSteps(s: State, s': State, f: Id, a: ResponseStep)
    requires f in s.resps && HitSpot(s.resps[f].at) && ResponseNext(s, s', f, a) && OwnMove(a)
    ensures a.ReadsMeta? || a.OpensBlob? || a.StatsBlob? || a.Copies?
  {
  }

  lemma HitStepOn(s: State, s': State, f: Id, a: ResponseStep)
    requires Sound(s, f) && HitSpot(s.resps[f].at) && ResponseNext(s, s', f, a) && OwnMove(a)
    ensures f in s'.resps && CopiedOn(s, s.resps[f], s'.resps[f])
  {
    HitSteps(s, s', f, a);
    if a.ReadsMeta? {
      LooksOn(s, s', f, a.ok);
    } else if a.OpensBlob? {
      OpensOn(s, s', f, a.ok);
    } else {
      StatsOn(s, s', f, a);
    }
  }

  lemma HitMoves(s: State, f: Id)
    requires Sound(s, f) && HitSpot(s.resps[f].at)
    ensures ResponseMoves(s, f)
  {
    var x := s.resps[f];
    if x.at.Lookup? {
      var y := if x.key in s.metas && s.metas[x.key].Full? && 100 <= s.metas[x.key].meta.status <= 999
               then x.(at := HaveMeta(s.metas[x.key].meta)) else Miss(x);
      assert ResponseNext(s, PutResp(s, f, y), f, ReadsMeta(true));
    } else if x.at.HaveMeta? {
      var s' := if x.key !in s.blobs then PutResp(s, f, Miss(x)).(metas := s.metas - {x.key})
                else PutResp(s, f, x.(at := Opened(x.at.meta, s.blobs[x.key])));
      assert ResponseNext(s, s', f, OpensBlob(true));
    } else if x.at.Opened? {
      var y := if |s.bodies[x.at.ino].bytes| == x.at.meta.size
               then x.(at := Copying, src := Some(x.at.ino), length := Some(x.at.meta.size)) else Miss(x);
      assert ResponseNext(s, PutResp(s, f, y), f, StatsBlob(true));
    } else {
      CopyMoves(s, f);
    }
  }

  lemma CopyMoves(s: State, f: Id)
    requires Sound(s, f) && s.resps[f].at.Copying?
    ensures ResponseMoves(s, f)
  {
    var x := s.resps[f];
    var bytes := s.bodies[x.src.value].bytes;
    var n := if x.off < |bytes| then 1 else 0;
    var y := (if n == 0 then End(x, None) else x).(off := x.off + n, sent := x.sent + bytes[x.off..x.off + n]);
    assert ResponseNext(s, PutResp(s, f, y), f, Copies(n, None));
  }

  // ------------------------------------------------------------------ what is published stays published

  lemma BodiesEvolveInStep(s: State, s': State, a: Step)
    requires Inv(s) && Next(s, s', a)
    ensures BodiesEvolve(s, s')
  {
    if a.OfDownload? {
      OwnStep(s, s', a.d, a.dl);
    } else if a.OfResponse? {
      ResponsesWriteNothing(s, s', a.f, a.resp);
    }
  }

  lemma ResponsesWriteNothing(s: State, s': State, f: Id, a: ResponseStep)
    requires ResponseNext(s, s', f, a)
    ensures s'.bodies == s.bodies
  {
    if a.Joins? {
      JoiningWritesNothing(s, s', f);
    }
  }

  /** What joining does to the downloads. */
  lemma JoinedDownloads(s: State, s': State, f: Id)
    requires Join(s, s', f)
    ensures s'.dls == s.dls || s'.dls == s.dls[s.next := NewDownload(s.resps[f].key)]
    ensures s.next <= s'.next
  {
    var x := s.resps[f];
    if x.key in s.inflight && s.inflight[x.key] in s.dls && !s.dls[s.inflight[x.key]].done {
      assert s'.dls == s.dls && s'.next == s.next;
    } else if s.taken < MAX_CONCURRENT_DOWNLOADS {
      assert s'.dls == s.dls[s.next := NewDownload(x.key)] && s'.next == s.next + 1;
    } else {
      assert s'.dls == s.dls && s'.next == s.next;
    }
  }

  lemma JoiningWritesNothing(s: State, s': State, f: Id)
    requires Join(s, s', f)
    ensures s'.bodies == s.bodies
  {
  }

  /** Along a run a body only grows at its end, even across the death of the process, and a complete one never
      changes; so what was once published, or once served whole, is never taken back. */
  lemma {:induction false} PublishedStays(run: seq<State>, i: nat, j: nat, d: Id)
    requires IsRun(run) && i <= j < |run| && d in run[i].bodies
    ensures d in run[j].bodies && BodyEvolves(run[i].bodies[d], run[j].bodies[d])
    decreases j - i
  {
    if i == j {
    } else {
      PublishedStays(run, i, j - 1, d);
      RunKeeps(run, j - 1);
      assert StepAt(run, j - 1);
      var a :| Next(run[j - 1], run[j - 1 + 1], a);
      BodiesEvolveInStep(run[j - 1], run[j], a);
      assert BodyEvolves(run[j - 1].bodies[d], run[j].bodies[d]);
    }
  }
}
