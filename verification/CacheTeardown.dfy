/** How downloads and responses of the streaming cache come to their end: what a download leaves behind, that it can
    always get there, and that a client who leaves is let go. */
module CacheTeardown {
  import opened CacheFollowers
  import opened CacheInvariants
  import opened CacheState
  import opened Options

  // ------------------------------------------------------------------ what is left behind

  /** Where a download may still have its temp file under its temp name. */
  predicate MayHaveTmp(stage: Stage) {
    || stage.Created? || stage.Reading? || stage.Drained? || stage.Sealed? || stage.Unwinding? || stage.Announced?
    || stage.Dropped?
  }

  predicate TmpFits(s: State, d: Id) {
    d in s.tmps ==> d < s.next && (d in s.dls ==> s.dls[d].tmpPath && MayHaveTmp(s.dls[d].stage))
  }

  predicate MetaTmpFits(s: State, d: Id) {
    d in s.metaTmps ==>
      d < s.next && (d in s.dls ==> s.dls[d].stage.MetaCreated? || s.dls[d].stage.MetaWritten?)
  }

  predicate KeyFits(s: State, k: Key) {
    k in s.inflight ==> s.inflight[k] in s.dls && InFlightStill(s.dls[s.inflight[k]], k)
  }

  predicate InFlightStill(x: Download, key: Key) {
    x.key == key && !x.stage.Dropped? && !x.stage.Cleaned? && !x.stage.Returned?
  }

  predicate Given(s: State, d: Id) {
    d in s.dls ==> d < s.next
  }

  /** The temp files of downloads that are there are owned by them, no entry in flight is dropped, and no number is
      ahead of what has been given out. */
  ghost predicate Tidy(s: State) {
    && (forall d :: Given(s, d)) && (forall d :: TmpFits(s, d)) && (forall d :: MetaTmpFits(s, d))
    && (forall k :: KeyFits(s, k))
  }

  /** All that has changed is this download and what belongs to it. */
  ghost predicate Changed(s: State, s': State, d: Id) {
    && d in s'.dls && s'.dls == s.dls[d := s'.dls[d]] && s.next <= s'.next && d < s'.next
    && s'.tmps <= s.tmps + {d} && s'.metaTmps.Keys <= s.metaTmps.Keys + {d}
    && (forall k :: k in s'.inflight ==> s'.inflight[k] == d || (k in s.inflight && s.inflight[k] == s'.inflight[k]))
    && (forall k :: k in s'.inflight && s'.inflight[k] == d ==> InFlightStill(s'.dls[d], k))
    && TmpFits(s', d) && MetaTmpFits(s', d)
  }

  lemma ChangedIsTidy(s: State, s': State, d: Id)
    requires Tidy(s) && Changed(s, s', d)
    ensures Tidy(s')
  {
    forall c ensures Given(s', c) && TmpFits(s', c) && MetaTmpFits(s', c) {
      assert Given(s, c) && TmpFits(s, c) && MetaTmpFits(s, c);
    }
    forall k ensures KeyFits(s', k) {
      assert KeyFits(s, k);
    }
  }

  predicate Begins(a: DownloadStep) {
    a.Fail? || a.Create? || a.Headers? || a.Write?
  }

  predicate Fills(a: DownloadStep) {
    a.Publish? || a.Eof? || a.Seal?
  }

  predicate Stores(a: DownloadStep) {
    a.NotStored? || a.Rename? || a.MetaFail? || a.Rollback?
  }

  predicate Documents(a: DownloadStep) {
    a.MetaCreate? || a.MetaWrite? || a.MetaRename?
  }

  /** What a step finds of its own download. */
  lemma OwnFacts(s: State, d: Id)
    requires Tidy(s) && d in s.dls
    ensures d < s.next && TmpFits(s, d) && MetaTmpFits(s, d)
    ensures forall k :: k in s.inflight && s.inflight[k] == d ==> InFlightStill(s.dls[d], k)
  {
    assert Given(s, d) && TmpFits(s, d) && MetaTmpFits(s, d);
    forall k | k in s.inflight && s.inflight[k] == d ensures InFlightStill(s.dls[d], k) {
      assert KeyFits(s, k);
    }
  }

  lemma BeginTidy(s: State, s': State, d: Id, a: DownloadStep)
    requires Tidy(s) && DownloadNext(s, s', d, a) && Begins(a)
    ensures Changed(s, s', d)
  {
    OwnFacts(s, d);
  }

  lemma FillTidy(s: State, s': State, d: Id, a: DownloadStep)
    requires Tidy(s) && DownloadNext(s, s', d, a) && Fills(a)
    ensures Changed(s, s', d)
  {
    OwnFacts(s, d);
  }

  lemma StoreTidy(s: State, s': State, d: Id, a: DownloadStep)
    requires Tidy(s) && DownloadNext(s, s', d, a) && Stores(a)
    ensures Changed(s, s', d)
  {
    OwnFacts(s, d);
  }

  lemma DocumentTidy(s: State, s': State, d: Id, a: DownloadStep)
    requires Tidy(s) && DownloadNext(s, s', d, a) && Documents(a)
    ensures Changed(s, s', d)
  {
    OwnFacts(s, d);
  }

  lemma EndTidy(s: State, s': State, d: Id, a: DownloadStep)
    requires Tidy(s) && DownloadNext(s, s', d, a)
    requires a.Announce? || a.Drop? || a.Clean? || a.Return?
    ensures Changed(s, s', d)
  {
    OwnFacts(s, d);
  }

  lemma DownloadTidy(s: State, s': State, d: Id, a: DownloadStep)
    requires Tidy(s) && DownloadNext(s, s', d, a)
    ensures Tidy(s')
  {
    if Begins(a) {
      BeginTidy(s, s', d, a);
    } else if Fills(a) {
      FillTidy(s, s', d, a);
    } else if Stores(a) {
      StoreTidy(s, s', d, a);
    } else if Documents(a) {
      DocumentTidy(s, s', d, a);
    } else {
      EndTidy(s, s', d, a);
    }
    ChangedIsTidy(s, s', d);
  }

  predicate SameThings(s: State, s': State) {
    s'.dls == s.dls && s'.tmps == s.tmps && s'.metaTmps == s.metaTmps && s'.inflight == s.inflight && s'.next == s.next
  }

  lemma SameIsTidy(s: State, s': State)
    requires Tidy(s) && SameThings(s, s')
    ensures Tidy(s')
  {
    forall c ensures Given(s', c) && TmpFits(s', c) && MetaTmpFits(s', c) {
      assert Given(s, c) && TmpFits(s, c) && MetaTmpFits(s, c);
    }
    forall k ensures KeyFits(s', k) {
      assert KeyFits(s, k);
    }
  }

  lemma ResponseTouches(s: State, s': State, f: Id, a: ResponseStep)
    requires ResponseNext(s, s', f, a) && !a.Joins?
    ensures SameThings(s, s')
  {
  }

  lemma ResponseTidy(s: State, s': State, f: Id, a: ResponseStep)
    requires Tidy(s) && ResponseNext(s, s', f, a)
    ensures Tidy(s')
  {
    if a.Joins? {
      JoinTidy(s, s', f);
    } else {
      ResponseTouches(s, s', f, a);
      SameIsTidy(s, s');
    }
  }

  lemma StartChanges(s: State, s': State, f: Id)
    requires Tidy(s) && Join(s, s', f)
    requires !JoinsRunning(s, s.resps[f].key) && s.taken < MAX_CONCURRENT_DOWNLOADS
    ensures Changed(s, s', s.next)
  {
    var d, key := s.next, s.resps[f].key;
    assert TmpFits(s, d) && MetaTmpFits(s, d);
    assert s'.dls == s.dls[d := NewDownload(key)] && s'.inflight == s.inflight[key := d];
    forall k | k in s'.inflight && s'.inflight[k] == d ensures k == key {
      assert KeyFits(s, k);
      assert k in s.inflight ==> Given(s, s.inflight[k]);
    }
  }

  lemma JoinTidy(s: State, s': State, f: Id)
    requires Tidy(s) && Join(s, s', f)
    ensures Tidy(s')
  {
    if JoinsRunning(s, s.resps[f].key) || s.taken >= MAX_CONCURRENT_DOWNLOADS {
      SameIsTidy(s, s');
    } else {
      StartChanges(s, s', f);
      ChangedIsTidy(s, s', s.next);
    }
  }

  lemma LessIsTidy(s: State, s': State)
    requires Tidy(s) && s'.tmps <= s.tmps && s'.metaTmps.Keys <= s.metaTmps.Keys && s'.next == s.next
    requires (s'.dls == s.dls && s'.inflight == s.inflight) || (s'.dls == map[] && s'.inflight == map[])
    ensures Tidy(s')
  {
    forall c ensures Given(s', c) && TmpFits(s', c) && MetaTmpFits(s', c) {
      assert Given(s, c) && TmpFits(s, c) && MetaTmpFits(s, c);
    }
    forall k ensures KeyFits(s', k) {
      assert KeyFits(s, k);
    }
  }

  lemma {:induction false} RunIsTidy(run: seq<State>, i: nat)
    requires IsRun(run) && i < |run|
    ensures Tidy(run[i])
    decreases i
  {
    if i == 0 {
    } else {
      RunIsTidy(run, i - 1);
      assert StepAt(run, i - 1);
      var a :| Next(run[i - 1], run[i - 1 + 1], a);
      match a
      case OfDownload(d, dl) => DownloadTidy(run[i - 1], run[i], d, dl);
      case OfResponse(f, resp) => ResponseTidy(run[i - 1], run[i], f, resp);
      case OfEvictor(_, _, _, _) => LessIsTidy(run[i - 1], run[i]);
      case ProcessKilled => LessIsTidy(run[i - 1], run[i]);
    }
  }

  /** In every state of every run: a download that has cleaned up has no temp file left, of body or document, and one
      that was dropped is found under no key. */
  lemma NothingIsLeftBehind(run: seq<State>, i: nat, d: Id)
    requires IsRun(run) && i < |run| && d in run[i].dls
    ensures run[i].dls[d].stage.Cleaned? || run[i].dls[d].stage.Returned? ==>
        d !in run[i].tmps && d !in run[i].metaTmps
    ensures run[i].dls[d].stage.Dropped? || run[i].dls[d].stage.Cleaned? || run[i].dls[d].stage.Returned? ==>
        forall k :: k in run[i].inflight ==> run[i].inflight[k] != d
  {
    RunIsTidy(run, i);
    OwnFacts(run[i], d);
  }

  // ------------------------------------------------------------------ getting there

  /** Steps of one download, one after the other, and nothing in between. */
  ghost predicate Takes(path: seq<State>, steps: seq<DownloadStep>, d: Id) {
    |path| == |steps| + 1 && forall i :: 0 <= i < |steps| ==> DownloadNext(path[i], path[i + 1], d, steps[i])
  }

  lemma Follows(path: seq<State>, steps: seq<DownloadStep>, rest: seq<State>, more: seq<DownloadStep>, d: Id)
    returns (whole: seq<State>, all: seq<DownloadStep>)
    requires Takes(path, steps, d) && Takes(rest, more, d) && path[|steps|] == rest[0]
    ensures Takes(whole, all, d) && whole[0] == path[0] && |all| == |steps| + |more| && whole[|all|] == rest[|more|]
  {
    whole, all := path + rest[1..], steps + more;
    forall i | 0 <= i < |all| ensures DownloadNext(whole[i], whole[i + 1], d, all[i]) {
      if i < |steps| {
        assert DownloadNext(path[i], path[i + 1], d, steps[i]);
      } else {
        var k := i - |steps|;
        assert DownloadNext(rest[k], rest[k + 1], d, more[k]);
        assert whole[i] == rest[k] && whole[i + 1] == rest[k + 1];
      }
    }
  }

  /** The end of a download that failed with e: over, its followers told if the body is not complete, its slot back. */
  predicate EndsWith(s: State, s': State, d: Id, e: Option<Fault>)
    requires d in s.dls
  {
    && At(s', d, Returned) && s'.dls[d].done && s'.dls[d].key == s.dls[d].key && s'.taken == s.taken - 1
    && s'.dls[d].bodyComplete == s.dls[d].bodyComplete && s'.dls[d].finalErr == e
    && s'.bodies == s.bodies
    && s'.dls[d].err == if s.dls[d].bodyComplete then s.dls[d].err else e
  }

  lemma AnnouncesIt(s: State, d: Id) returns (s': State)
    requires At(s, d, Unwinding)
    ensures DlAnnounce(s, s', d) && At(s', d, Announced) && s'.taken == s.taken && s'.bodies == s.bodies
    ensures var x := s.dls[d];
      s'.dls[d] == x.(stage := Announced, tmpFile := false, done := true,
                      err := if x.err == None && !x.bodyComplete then x.finalErr else x.err)
  {
    var x := s.dls[d];
    var err := if x.err == None && !x.bodyComplete then x.finalErr else x.err;
    s' := Put(s, d, x.(stage := Announced, tmpFile := false, done := true, err := err)).(resps := Wake(s.resps, d));
  }

  lemma DropsIt(s: State, d: Id) returns (s': State)
    requires At(s, d, Announced)
    ensures DlDrop(s, s', d) && At(s', d, Dropped) && s'.dls[d] == s.dls[d].(stage := Dropped)
    ensures s'.taken == s.taken && s'.bodies == s.bodies
  {
    var key := s.dls[d].key;
    s' := Put(s, d, s.dls[d].(stage := Dropped))
            .(inflight := if key in s.inflight && s.inflight[key] == d then s.inflight - {key} else s.inflight);
  }

  lemma CleansIt(s: State, d: Id) returns (s': State)
    requires At(s, d, Dropped)
    ensures DlClean(s, s', d) && At(s', d, Cleaned) && s'.dls[d] == s.dls[d].(stage := Cleaned)
    ensures s'.taken == s.taken && s'.bodies == s.bodies
  {
    s' := Put(s, d, s.dls[d].(stage := Cleaned)).(tmps := if s.dls[d].tmpPath then s.tmps - {d} else s.tmps);
  }

  lemma ReturnsIt(s: State, d: Id) returns (s': State)
    requires At(s, d, Cleaned) && s.taken > 0
    ensures DlReturn(s, s', d) && At(s', d, Returned) && s'.dls[d] == s.dls[d].(stage := Returned)
    ensures s'.taken == s.taken - 1 && s'.bodies == s.bodies
  {
    s' := Put(s, d, s.dls[d].(stage := Returned)).(taken := s.taken - 1);
  }

  lemma TearsDown(s: State, d: Id) returns (path: seq<State>, steps: seq<DownloadStep>)
    requires At(s, d, Unwinding) && s.taken > 0 && s.dls[d].err == None
    ensures Takes(path, steps, d) && path[0] == s && |steps| == 4
    ensures EndsWith(s, path[4], d, s.dls[d].finalErr)
  {
    var s1 := AnnouncesIt(s, d);
    var s2 := DropsIt(s1, d);
    var s3 := CleansIt(s2, d);
    var s4 := ReturnsIt(s3, d);
    OneStep(s, s1, d, Announce);
    OneStep(s1, s2, d, Drop);
    OneStep(s2, s3, d, Clean);
    OneStep(s3, s4, d, Return);
    path, steps := Follows([s, s1], [Announce], [s1, s2], [Drop], d);
    path, steps := Follows(path, steps, [s2, s3], [Clean], d);
    path, steps := Follows(path, steps, [s3, s4], [Return], d);
  }

  lemma OneStep(s: State, s': State, d: Id, a: DownloadStep)
    requires DownloadNext(s, s', d, a)
    ensures Takes([s, s'], [a], d)
  {
  }

  /** It has failed: with e while it filled the body, and afterwards because it cannot be stored. */
  predicate HasFailed(s: State, s': State, d: Id, e: Fault) {
    && d in s.dls && At(s', d, Unwinding) && s'.taken == s.taken && s'.bodies == s.bodies
    && s'.dls[d].key == s.dls[d].key && s'.dls[d].bodyComplete == s.dls[d].bodyComplete
    && s'.dls[d].err == s.dls[d].err
    && s'.dls[d].finalErr == Some(if s.dls[d].bodyComplete then Disk else e)
  }

  lemma FailsFilling(s: State, d: Id, e: Fault) returns (s': State)
    requires d in s.dls && s.dls[d].stage in {Fetching, Created, Reading, Drained} && !s.dls[d].bodyComplete
    ensures DlFail(s, s', d, e) && HasFailed(s, s', d, e)
  {
    s' := Put(s, d, s.dls[d].(stage := Unwinding, finalErr := Some(e)));
  }

  lemma FailsStoring(s: State, d: Id, e: Fault) returns (s': State)
    requires At(s, d, Sealed) && s.dls[d].bodyComplete
    ensures DlNotStored(s, s', d) && HasFailed(s, s', d, e)
  {
    s' := Put(s, d, s.dls[d].(stage := Unwinding, finalErr := Some(Disk)));
  }

  lemma RollsBack(s: State, d: Id, e: Fault) returns (s': State)
    requires At(s, d, RollingBack) && s.dls[d].bodyComplete
    ensures DlRollback(s, s', d) && HasFailed(s, s', d, e)
  {
    s' := Put(s, d, s.dls[d].(stage := Unwinding, finalErr := Some(Disk))).(blobs := s.blobs - {s.dls[d].key});
  }

  lemma FailsDocument(s: State, d: Id) returns (s': State)
    requires d in s.dls && s.dls[d].stage in {Renamed, MetaCreated, MetaWritten}
    ensures DlMetaFail(s, s', d) && At(s', d, RollingBack) && s'.dls[d] == s.dls[d].(stage := RollingBack)
    ensures s'.taken == s.taken && s'.bodies == s.bodies
  {
    s' := Put(s, d, s.dls[d].(stage := RollingBack)).(metaTmps := s.metaTmps - {d});
  }

  lemma FailsNow(s: State, d: Id, e: Fault) returns (path: seq<State>, steps: seq<DownloadStep>)
    requires d in s.dls && !s.dls[d].done && !s.dls[d].stage.Unwinding? && Shape(s.dls[d])
    ensures Takes(path, steps, d) && path[0] == s && |steps| <= 2 && HasFailed(s, path[|steps|], d, e)
  {
    var stage := s.dls[d].stage;
    if stage in {Fetching, Created, Reading, Drained} {
      var s1 := FailsFilling(s, d, e);
      path, steps := [s, s1], [Fail(e)];
    } else if stage.Sealed? {
      var s1 := FailsStoring(s, d, e);
      path, steps := [s, s1], [NotStored];
    } else if stage.RollingBack? {
      var s1 := RollsBack(s, d, e);
      path, steps := [s, s1], [Rollback];
    } else {
      var s1 := FailsDocument(s, d);
      var s2 := RollsBack(s1, d, e);
      path, steps := [s, s1, s2], [MetaFail, Rollback];
    }
  }

  /** In every state of every run a download that has not begun to end can fail, with any error, and gets then by
      steps of its own to where it is over: its followers have the error if and only if the body was not complete, its
      temp files are gone, its key is free for another, and its slot is given back. */
  lemma FailsCleanly(run: seq<State>, i: nat, d: Id, e: Fault) returns (path: seq<State>, steps: seq<DownloadStep>)
    requires IsRun(run) && i < |run| && d in run[i].dls
    requires !run[i].dls[d].done && !run[i].dls[d].stage.Unwinding?
    ensures Takes(path, steps, d) && path[0] == run[i] && |steps| <= 6
    ensures var s, s' := run[i], path[|steps|];
      && EndsWith(s, s', d, Some(if s.dls[d].bodyComplete then Disk else e))
      && d !in s'.tmps && d !in s'.metaTmps && (s.dls[d].key in s'.inflight ==> s'.inflight[s.dls[d].key] != d)
  {
    RunKeeps(run, i);
    assert DlOk(run[i], d);
    HoldsASlot(run[i], d);
    var first, fail := FailsNow(run[i], d, e);
    var rest, more := TearsDown(first[|fail|], d);
    path, steps := Follows(first, fail, rest, more, d);
    TidyAlong(run, i, path, steps, d);
    OwnFacts(path[|steps|], d);
  }

  lemma HoldsASlot(s: State, d: Id)
    requires Inv(s) && d in s.dls && !s.dls[d].done
    ensures s.taken > 0
  {
    assert DlOk(s, d);
    assert d in Running(s.dls);
  }

  lemma {:induction false} StaysTidy(path: seq<State>, steps: seq<DownloadStep>, d: Id, k: nat)
    requires Takes(path, steps, d) && k < |path| && Tidy(path[0])
    ensures Tidy(path[k])
    decreases k
  {
    if k > 0 {
      StaysTidy(path, steps, d, k - 1);
      assert DownloadNext(path[k - 1], path[k - 1 + 1], d, steps[k - 1]);
      DownloadTidy(path[k - 1], path[k], d, steps[k - 1]);
    }
  }

  lemma TidyAlong(run: seq<State>, i: nat, path: seq<State>, steps: seq<DownloadStep>, d: Id)
    requires IsRun(run) && i < |run| && Takes(path, steps, d) && path[0] == run[i]
    ensures Tidy(path[|steps|])
  {
    RunIsTidy(run, i);
    StaysTidy(path, steps, d, |steps|);
  }

  // ------------------------------------------------------------------ a client that leaves

  /** A download touches no response but those that follow it. */
  lemma TouchesItsOwn(s: State, s': State, d: Id, a: DownloadStep, f: Id)
    requires DownloadNext(s, s', d, a) && f in s.resps && s.resps[f].dl != Some(d)
    ensures f in s'.resps && s'.resps[f] == s.resps[f]
  {
  }

  /** Steps of one response, one after the other, and nothing in between. */
  ghost predicate ItTakes(path: seq<State>, steps: seq<ResponseStep>, f: Id) {
    |path| == |steps| + 1 && forall i :: 0 <= i < |steps| ==> ResponseNext(path[i], path[i + 1], f, steps[i])
  }

  /** In every state of every run a follower that sleeps, for the headers or for more, is let go when its client
      leaves: the cancellation wakes it, and it ends with just that. */
  lemma SleeperIsLetGo(run: seq<State>, i: nat, f: Id) returns (path: seq<State>, steps: seq<ResponseStep>)
    requires IsRun(run) && i < |run| && f in run[i].resps && !run[i].resps[f].cancelled
    requires run[i].resps[f].at == Waiting(true) || run[i].resps[f].at == AtHead(true)
    ensures ItTakes(path, steps, f) && path[0] == run[i] && |steps| <= 4 && |steps| >= 1 && steps[0] == IsCancelled
    ensures f in path[|steps|].resps && path[|steps|].resps[f].at == Ended(Some(Cancelled))
  {
    RunKeeps(run, i);
    SleeperFacts(run[i], f);
    var s1, s2 := IsWoken(run[i], f);
    var end, last := Leaves(s2, f);
    ItFirst(s1, f, CallbackRuns, end, last);
    ItFirst(run[i], f, IsCancelled, [s1] + end, [CallbackRuns] + last);
    path, steps := [run[i]] + ([s1] + end), [IsCancelled] + ([CallbackRuns] + last);
  }

  /** Awake, and the client gone. */
  predicate Roused(s: State, f: Id) {
    && Joined(s, f) && s.resps[f].cancelled
    && (s.resps[f].at == AtHead(false)
        || (s.resps[f].at == Waiting(false) && !s.dls[s.resps[f].dl.value].headersReady
            && s.dls[s.resps[f].dl.value].err == None))
  }

  lemma Leaves(s: State, f: Id) returns (path: seq<State>, steps: seq<ResponseStep>)
    requires Roused(s, f)
    ensures ItTakes(path, steps, f) && path[0] == s && |steps| <= 2
    ensures f in path[|steps|].resps && path[|steps|].resps[f].at == Ended(Some(Cancelled))
  {
    if s.resps[f].at.Waiting? {
      var s1 := LeavesTheHeaders(s, f);
      path, steps := [s, s1], [ResponseStep.Follows(true)];
    } else {
      var s1, s2 := LeavesTheHead(s, f);
      ItFirst(s, f, Catches, [s1, s2], [Concludes]);
      path, steps := [s] + [s1, s2], [Catches] + [Concludes];
    }
  }

  lemma ItFirst(s: State, f: Id, a: ResponseStep, path: seq<State>, steps: seq<ResponseStep>)
    requires ItTakes(path, steps, f) && ResponseNext(s, path[0], f, a)
    ensures ItTakes([s] + path, [a] + steps, f) && ([s] + path)[|steps| + 1] == path[|steps|]
  {
    var path', steps' := [s] + path, [a] + steps;
    forall i | 0 <= i < |steps'| ensures ResponseNext(path'[i], path'[i + 1], f, steps'[i]) {
      if i > 0 {
        assert ResponseNext(path[i - 1], path[i - 1 + 1], f, steps[i - 1]);
      }
    }
  }

  lemma SleeperFacts(s: State, f: Id)
    requires Inv(s) && f in s.resps && Parked(s.resps[f].at)
    ensures Joined(s, f)
    ensures s.resps[f].at.Waiting? ==>
        !s.dls[s.resps[f].dl.value].headersReady && s.dls[s.resps[f].dl.value].err == None
  {
    assert RespOk(s, f);
    assert DlOk(s, s.resps[f].dl.value);
  }

  lemma LeavesTheHeaders(s: State, f: Id) returns (s': State)
    requires Is(s, f, Waiting(false)) && Joined(s, f) && s.resps[f].cancelled
    requires !s.dls[s.resps[f].dl.value].headersReady && s.dls[s.resps[f].dl.value].err == None
    ensures Follow(s, s', f, true) && f in s'.resps && s'.resps[f].at == Ended(Some(Cancelled))
  {
    s' := PutResp(s, f, End(s.resps[f], Some(Cancelled)));
  }

  lemma LeavesTheHead(s: State, f: Id) returns (s1: State, s2: State)
    requires Is(s, f, AtHead(false)) && Joined(s, f) && s.resps[f].cancelled
    ensures Catch(s, s1, f) && Conclude(s1, s2, f) && f in s2.resps && s2.resps[f].at == Ended(Some(Cancelled))
  {
    var x, e := s.resps[f], s.dls[s.resps[f].dl.value];
    s1 := PutResp(s, f, x.(at := Woken(e.done && e.size <= x.off, e.err)));
    s2 := PutResp(s1, f, End(s1.resps[f], Some(Cancelled)));
  }

  lemma IsWoken(s: State, f: Id) returns (s1: State, s2: State)
    requires Joined(s, f) && !s.resps[f].cancelled && Parked(s.resps[f].at)
    ensures Cancel(s, s1, f) && RunCallback(s1, s2, f)
    ensures s2.dls == s.dls && f in s2.resps
    ensures s2.resps[f] == s.resps[f].(cancelled := true, callback := false, at := Unpark(s.resps[f].at))
  {
    s1 := PutResp(s, f, s.resps[f].(cancelled := true, callback := true));
    s2 := s1.(resps := Wake(s1.resps[f := s1.resps[f].(callback := false)], s1.resps[f].dl.value));
  }
}
