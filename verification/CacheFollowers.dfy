/** The responses' steps keep the invariant of the streaming cache too. */
module CacheFollowers {
  import opened CacheInvariants
  import opened CacheState
  import opened CacheSteps
  import opened Options

  /** A step that changes one response, and at most unlinks a .meta. */
  lemma OneResponse(s: State, s': State, f: Id)
    requires Inv(s) && f in s'.resps
    requires s' == s.(resps := s'.resps, metas := s'.metas) && s'.resps == s.resps[f := s'.resps[f]]
    requires forall k :: k in s'.metas ==> k in s.metas && s'.metas[k] == s.metas[k]
    requires RespOk(s', f)
    ensures Inv(s')
  {
    forall g | g in s'.resps ensures RespOk(s', g) {
      if g != f {
        assert RespOk(s, g) && s'.resps[g] == s.resps[g];
      }
    }
    forall d | d in s'.dls ensures DlOk(s', d) {
      assert DlOk(s, d);
    }
    forall k | k in s'.blobs ensures WholeBlob(s', k, s'.blobs[k]) {
      assert WholeBlob(s, k, s.blobs[k]);
    }
  }

  /** What such a step has to show about its own response. */
  ghost predicate OwnResponse(s: State, s': State, f: Id) {
    && f in s'.resps && s' == s.(resps := s'.resps, metas := s'.metas) && s'.resps == s.resps[f := s'.resps[f]]
    && (forall k :: k in s'.metas ==> k in s.metas && s'.metas[k] == s.metas[k])
    && RespOk(s', f)
  }

  /** A response stands in a sound state: its own promise, and that of the entry it follows. */
  ghost predicate Sound(s: State, f: Id) {
    && f in s.resps && RespOk(s, f)
    && (s.resps[f].dl.Some? && s.resps[f].dl.value in s.dls ==>
        Shape(s.dls[s.resps[f].dl.value]) && Backed(s, s.resps[f].dl.value))
  }

  lemma SoundInInv(s: State, f: Id)
    requires Inv(s) && f in s.resps
    ensures Sound(s, f)
  {
    if s.resps[f].dl.Some? && s.resps[f].dl.value in s.dls {
      assert DlOk(s, s.resps[f].dl.value);
    }
  }

  lemma ArriveStep(s: State, s': State, f: Id, key: Key)
    requires Arrive(s, s', f, key)
    ensures OwnResponse(s, s', f)
  {
  }

  lemma MetaStep(s: State, s': State, f: Id, ok: bool)
    requires Sound(s, f) && ReadMeta(s, s', f, ok)
    ensures OwnResponse(s, s', f)
  {
  }

  lemma OpenStep(s: State, s': State, f: Id, ok: bool)
    requires Sound(s, f) && DiskOk(s) && OpenBlob(s, s', f, ok)
    ensures OwnResponse(s, s', f)
  {
    var key := s.resps[f].key;
    if key in s.blobs {
      assert WholeBlob(s, key, s.blobs[key]);
      assert s' == s.(resps := s'.resps);
    } else {
      assert s' == s.(resps := s'.resps, metas := s.metas - {key});
    }
    OpenedResponse(s, s', f);
  }

  lemma OpenedResponse(s: State, s': State, f: Id)
    requires f in s.resps && RespOk(s, f) && s.resps[f].at.HaveMeta? && f in s'.resps
    requires s'.bodies == s.bodies && s'.dls == s.dls
    requires var x, x' := s.resps[f], s'.resps[f];
      x' == Miss(x) || (exists ino :: x' == x.(at := Opened(x.at.meta, ino)) && WholeBlob(s, x.key, ino))
    ensures RespOk(s', f)
  {
  }

  lemma StatStep(s: State, s': State, f: Id, ok: bool)
    requires Sound(s, f) && StatBlob(s, s', f, ok)
    ensures OwnResponse(s, s', f)
  {
  }

  lemma CopyStep(s: State, s': State, f: Id, n: nat, fault: Option<Fault>)
    requires Sound(s, f) && Copy(s, s', f, n, fault)
    ensures OwnResponse(s, s', f)
  {
    var x := s.resps[f];
    var bytes := s.bodies[x.src.value].bytes;
    assert bytes[..x.off + n] == bytes[..x.off] + bytes[x.off..x.off + n];
    assert bytes[..|bytes|] == bytes;
  }

  lemma ReadStep(s: State, s': State, f: Id, n: nat, fault: Option<Fault>)
    requires Sound(s, f) && ReadChunk(s, s', f, n, fault)
    ensures OwnResponse(s, s', f)
  {
    var x := s.resps[f];
    var bytes := s.bodies[x.src.value].bytes;
    assert bytes[..x.off + n] == bytes[..x.off] + bytes[x.off..x.off + n];
  }

  lemma AskStep(s: State, s': State, f: Id, a: ResponseStep)
    requires Sound(s, f) && ResponseNext(s, s', f, a)
    requires a.Registers? || a.IsCancelled?
    ensures OwnResponse(s, s', f)
  {
  }

  lemma WaitStep(s: State, s': State, f: Id, a: ResponseStep)
    requires Sound(s, f) && ResponseNext(s, s', f, a)
    requires a.ReadsTop? || a.Catches?
    ensures OwnResponse(s, s', f)
  {
  }

  lemma FollowStep(s: State, s': State, f: Id, dupOk: bool)
    requires Sound(s, f) && Follow(s, s', f, dupOk)
    ensures OwnResponse(s, s', f)
  {
  }

  lemma DryStep(s: State, s': State, f: Id)
    requires Sound(s, f) && CheckDry(s, s', f)
    ensures OwnResponse(s, s', f)
  {
  }

  lemma EndStep(s: State, s': State, f: Id)
    requires Sound(s, f) && Conclude(s, s', f)
    ensures OwnResponse(s, s', f)
  {
    var x := s.resps[f];
    var bytes := s.bodies[x.src.value].bytes;
    assert bytes[..|bytes|] == bytes;
  }

  lemma WakeUnparked(resps: map<Id, Response>, f: Id, x: Response, d: Id)
    requires x.dl == Some(d)
    ensures Wake(resps[f := x.(at := Unpark(x.at))], d) == Wake(resps[f := x], d)
  {
    var a, b := Wake(resps[f := x.(at := Unpark(x.at))], d), Wake(resps[f := x], d);
    assert a.Keys == b.Keys;
    assert forall g :: g in a ==> a[g] == b[g];
  }

  /** A cancellation callback wakes everyone who waits on that entry. */
  lemma CallbackStep(s: State, s': State, f: Id)
    requires Inv(s) && RunCallback(s, s', f)
    ensures Inv(s')
  {
    var x := s.resps[f].(callback := false);
    var mid := s.(resps := s.resps[f := x.(at := Unpark(x.at))]);
    SoundInInv(s, f);
    CallbackOwn(s, mid, f);
    OneResponse(s, mid, f);
    WakeUnparked(s.resps, f, x, x.dl.value);
    BroadcastKeeps(mid, s', x.dl.value);
  }

  lemma CallbackOwn(s: State, mid: State, f: Id)
    requires Sound(s, f) && mid == s.(resps := s.resps[f := s.resps[f].(callback := false,
        at := Unpark(s.resps[f].at))])
    ensures OwnResponse(s, mid, f)
  {
  }

  lemma BroadcastKeeps(s: State, s': State, d: Id)
    requires Inv(s) && s' == s.(resps := Wake(s.resps, d))
    ensures Inv(s')
  {
    ResponsesWake(s, s', d);
    forall o | o in s'.dls ensures DlOk(s', o) {
      assert DlOk(s, o);
    }
    forall k | k in s'.blobs ensures WholeBlob(s', k, s'.blobs[k]) {
      assert WholeBlob(s, k, s.blobs[k]);
    }
  }

  predicate JoinsRunning(s: State, key: Key) {
    key in s.inflight && s.inflight[key] in s.dls && !s.dls[s.inflight[key]].done
  }

  lemma JoinStep(s: State, s': State, f: Id)
    requires Inv(s) && Join(s, s', f)
    requires JoinsRunning(s, s.resps[f].key) || s.taken >= MAX_CONCURRENT_DOWNLOADS
    ensures OwnResponse(s, s', f)
  {
    SoundInInv(s, f);
    var x := s.resps[f];
    if JoinsRunning(s, x.key) {
      assert s.dls[s.inflight[x.key]].key == x.key;
      JoinedResponse(s, s', f, s.inflight[x.key]);
    } else {
      BusyResponse(s, s', f);
    }
  }

  lemma JoinedResponse(s: State, s': State, f: Id, d: Id)
    requires Sound(s, f) && s.resps[f].at.Joining? && d in s.dls && s.dls[d].key == s.resps[f].key
    requires s' == PutResp(s, f, s.resps[f].(at := Registering, dl := Some(d)))
    ensures OwnResponse(s, s', f)
  {
  }

  lemma BusyResponse(s: State, s': State, f: Id)
    requires Sound(s, f) && s.resps[f].at.Joining?
    requires s' == PutResp(s, f, s.resps[f].(at := TurnedAway))
    ensures OwnResponse(s, s', f)
  {
  }

  /** Starting a download: the entry it replaces in flight, if any, is done. */
  lemma StartStep(s: State, s': State, f: Id)
    requires Inv(s) && Join(s, s', f)
    requires !JoinsRunning(s, s.resps[f].key) && s.taken < MAX_CONCURRENT_DOWNLOADS
    ensures Inv(s')
  {
    StartIsFresh(s);
    StartKeepsDownloads(s, s', f);
    StartKeepsIndex(s, s', f);
    StartKeepsResponses(s, s', f);
    StartTakesSlot(s, s', f);
    StartKeepsDisk(s, s', f);
  }

  lemma StartTakesSlot(s: State, s': State, f: Id)
    requires SlotsOk(s) && s.next !in s.dls && Join(s, s', f)
    requires !JoinsRunning(s, s.resps[f].key) && s.taken < MAX_CONCURRENT_DOWNLOADS
    ensures SlotsOk(s')
  {
    assert Running(s'.dls) == Running(s.dls) + {s.next};
  }

  lemma StartKeepsDisk(s: State, s': State, f: Id)
    requires DiskOk(s) && s.next !in s.dls && Join(s, s', f)
    requires !JoinsRunning(s, s.resps[f].key) && s.taken < MAX_CONCURRENT_DOWNLOADS
    ensures DiskOk(s')
  {
    forall k | k in s'.blobs ensures WholeBlob(s', k, s'.blobs[k]) {
      assert WholeBlob(s, k, s.blobs[k]);
    }
  }

  lemma StartIsFresh(s: State)
    requires Inv(s)
    ensures s.next !in s.dls && s.next !in s.bodies
  {
    forall d | d in s.dls ensures d < s.next {
      assert DlOk(s, d);
    }
  }

  lemma StartKeepsDownloads(s: State, s': State, f: Id)
    requires DownloadsOk(s) && IndexOk(s) && s.next !in s.dls && s.next !in s.bodies && Join(s, s', f)
    requires !JoinsRunning(s, s.resps[f].key) && s.taken < MAX_CONCURRENT_DOWNLOADS
    ensures DownloadsOk(s')
  {
    var key := s.resps[f].key;
    forall d | d in s'.dls ensures DlOk(s', d) {
      if d != s.next {
        assert DlOk(s, d) && s'.dls[d] == s.dls[d];
        assert Backed(s', d);
        assert Listed(s', d);
      }
    }
  }

  lemma StartKeepsIndex(s: State, s': State, f: Id)
    requires IndexOk(s) && s.next !in s.dls && Join(s, s', f)
    requires !JoinsRunning(s, s.resps[f].key) && s.taken < MAX_CONCURRENT_DOWNLOADS
    ensures IndexOk(s')
  {
    forall k | k in s'.inflight ensures s'.inflight[k] in s'.dls && s'.dls[s'.inflight[k]].key == k {
      if k != s.resps[f].key {
        assert k in s.inflight && s'.inflight[k] == s.inflight[k];
      }
    }
  }

  lemma StartKeepsResponses(s: State, s': State, f: Id)
    requires ResponsesOk(s) && s.next !in s.dls && Join(s, s', f)
    requires !JoinsRunning(s, s.resps[f].key) && s.taken < MAX_CONCURRENT_DOWNLOADS
    ensures ResponsesOk(s')
  {
    assert RespOk(s, f);
    assert EntriesEvolve(s, s') && BodiesEvolve(s, s');
    forall g | g in s'.resps ensures RespOk(s', g) {
      if g != f {
        assert RespOk(s, g) && s'.resps[g] == s.resps[g];
        Bystander(s, s', g);
      } else {
        CarriesOn(s, s', s'.resps[f]);
      }
    }
  }

  lemma ResponseKeeps(s: State, s': State, f: Id, a: ResponseStep)
    requires Inv(s) && ResponseNext(s, s', f, a)
    ensures Inv(s')
  {
    if a.CallbackRuns? {
      CallbackStep(s, s', f);
    } else if a.Joins? && !JoinsRunning(s, s.resps[f].key) && s.taken < MAX_CONCURRENT_DOWNLOADS {
      StartStep(s, s', f);
    } else {
      OwnStepOf(s, s', f, a);
      OneResponse(s, s', f);
    }
  }

  lemma OwnStepOf(s: State, s': State, f: Id, a: ResponseStep)
    requires Inv(s) && ResponseNext(s, s', f, a) && !a.CallbackRuns?
    requires a.Joins? ==> JoinsRunning(s, s.resps[f].key) || s.taken >= MAX_CONCURRENT_DOWNLOADS
    ensures OwnResponse(s, s', f)
  {
    if f in s.resps {
      SoundInInv(s, f);
    }
    match a
    case Arrives(key) => ArriveStep(s, s', f, key);
    case ReadsMeta(ok) => MetaStep(s, s', f, ok);
    case OpensBlob(ok) => OpenStep(s, s', f, ok);
    case StatsBlob(ok) => StatStep(s, s', f, ok);
    case Copies(n, fault) => CopyStep(s, s', f, n, fault);
    case Joins => JoinStep(s, s', f);
    case Registers => AskStep(s, s', f, a);
    case IsCancelled => AskStep(s, s', f, a);
    case Follows(dupOk) => FollowStep(s, s', f, dupOk);
    case ReadsTop => WaitStep(s, s', f, a);
    case ReadsChunk(n, fault) => ReadStep(s, s', f, n, fault);
    case ChecksDry => DryStep(s, s', f);
    case Catches => WaitStep(s, s', f, a);
    case Concludes => EndStep(s, s', f);
  }

  lemma EvictorKeeps(s: State, s': State, keys: set<Key>, metas: set<Key>, tmps: set<Id>, metaTmps: set<Id>)
    requires Inv(s) && Unlink(s, s', keys, metas, tmps, metaTmps)
    ensures Inv(s')
  {
    forall d | d in s'.dls ensures DlOk(s', d) {
      assert DlOk(s, d);
    }
    forall f | f in s'.resps ensures RespOk(s', f) {
      assert RespOk(s, f);
    }
    forall k | k in s'.blobs ensures WholeBlob(s', k, s'.blobs[k]) {
      assert WholeBlob(s, k, s.blobs[k]);
    }
  }

  lemma KillKeeps(s: State, s': State)
    requires Inv(s) && Kill(s, s')
    ensures Inv(s')
  {
    assert Running(s'.dls) == {};
    forall k | k in s'.blobs ensures WholeBlob(s', k, s'.blobs[k]) {
      assert WholeBlob(s, k, s.blobs[k]);
    }
  }

  lemma InitHolds(s: State)
    requires Init(s)
    ensures Inv(s)
  {
    assert Running(s.dls) == {};
  }

  lemma NextKeeps(s: State, s': State, a: Step)
    requires Inv(s) && Next(s, s', a)
    ensures Inv(s')
  {
    match a
    case OfDownload(d, dl) => DownloadKeeps(s, s', d, dl);
    case OfResponse(f, resp) => ResponseKeeps(s, s', f, resp);
    case OfEvictor(keys, metas, tmps, metaTmps) => EvictorKeeps(s, s', keys, metas, tmps, metaTmps);
    case ProcessKilled => KillKeeps(s, s');
  }

  lemma {:induction false} RunKeeps(run: seq<State>, i: nat)
    requires IsRun(run) && i < |run|
    ensures Inv(run[i])
    decreases i
  {
    if i == 0 {
      InitHolds(run[0]);
    } else {
      RunKeeps(run, i - 1);
      assert StepAt(run, i - 1);
      var a :| Next(run[i - 1], run[i - 1 + 1], a);
      NextKeeps(run[i - 1], run[i], a);
    }
  }
}
