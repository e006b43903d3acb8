/** How responses of the streaming cache end: a fault always has its cause, and a response that nothing disturbs gets
    all there is, from a download in progress as well as from a finished one. */
module CacheEndings {
  import opened CacheFollowers
  import opened CacheInvariants
  import opened CacheState
  import opened CacheTheorems
  import opened Options

  // ------------------------------------------------------------------ every fault has its cause

  /** A step of the response itself brings this fault: the descriptor cannot be inherited, a read or the client's write
      fails, a pread gives nothing, or the finished blob, looked for a second time, cannot be read. */
  predicate Brings(x: Response, a: ResponseStep, e: Fault) {
    match a
    case Follows(dupOk) => !dupOk && e == Disk
    case ReadsChunk(n, fault) => fault == Some(e) || (n == 0 && fault == None && e == UnexpectedEof)
    case Copies(_, fault) => fault == Some(e)
    case ReadsMeta(ok) => !ok && x.late && e == NotPublished
    case OpensBlob(ok) => !ok && x.late && e == NotPublished
    case StatsBlob(ok) => !ok && x.late && e == NotPublished
    case _ => false
  }

  /** What the response looks for is not on the disk, or not as it was written. */
  predicate NotThere(s: State, x: Response) {
    match x.at
    case Lookup => x.key !in s.metas || !s.metas[x.key].Full? || !(100 <= s.metas[x.key].meta.status <= 999)
    case HaveMeta(_) => x.key !in s.blobs
    case Opened(meta, ino) => ino in s.bodies && |s.bodies[ino].bytes| != meta.size
    case _ => false
  }

  /** In this state this step is a cause of that fault: the client leaves; or the entry followed has failed with it;
      or the response's own step brings it; or the finished blob, looked for a second time, is gone. */
  predicate Causes(s: State, a: Step, f: Id, e: Fault) {
    && f in s.resps
    && var x := s.resps[f];
      || (a == OfResponse(f, IsCancelled) && e == Cancelled)
      || (x.dl.Some? && x.dl.value in s.dls && s.dls[x.dl.value].err == Some(e))
      || (a.OfResponse? && a.f == f && Brings(x, a.resp, e))
      || (a.OfResponse? && a.f == f && x.late && e == NotPublished && NotThere(s, x))
  }

  ghost predicate CausedAt(run: seq<State>, labels: seq<Step>, j: nat, i: nat, f: Id, e: Fault)
    requires j < i < |run| && |labels| + 1 == |run|
  {
    Causes(run[j], labels[j], f, e) && forall k :: j <= k <= i ==> f in run[k].resps
  }

  ghost predicate HasCause(run: seq<State>, labels: seq<Step>, i: nat, f: Id, e: Fault)
    requires i < |run| && |labels| + 1 == |run|
  {
    exists j :: 0 <= j < i && CausedAt(run, labels, j, i, f, e)
  }

  lemma CauseStays(run: seq<State>, labels: seq<Step>, i: nat, f: Id, e: Fault)
    requires i + 1 < |run| && |labels| + 1 == |run| && HasCause(run, labels, i, f, e) && f in run[i + 1].resps
    ensures HasCause(run, labels, i + 1, f, e)
  {
    var j :| 0 <= j < i && CausedAt(run, labels, j, i, f, e);
    assert CausedAt(run, labels, j, i + 1, f, e);
  }

  lemma CauseNow(run: seq<State>, labels: seq<Step>, i: nat, f: Id, e: Fault)
    requires i + 1 < |run| && |labels| + 1 == |run| && Causes(run[i], labels[i], f, e) && f in run[i + 1].resps
    ensures HasCause(run, labels, i + 1, f, e)
  {
    assert CausedAt(run, labels, i, i + 1, f, e);
  }

  // ------------------------------------------------------------------ what one step does to a response

  /** The step is not one of this response. */
  predicate NotBy(a: Step, f: Id) {
    a.OfResponse? ==> a.f != f
  }

  predicate OnlyWoken(s: State, s': State, f: Id) {
    && f in s.resps && f in s'.resps
    && (s'.resps[f] == s.resps[f] || s'.resps[f] == s.resps[f].(at := Unpark(s.resps[f].at)))
  }

  predicate Explained(s: State, f: Id, a: ResponseStep, e: Fault)
    requires f in s.resps
  {
    || Causes(s, OfResponse(f, a), f, e)
    || (e == Cancelled && s.resps[f].cancelled)
    || (e == UnexpectedEof && s.resps[f].at.Dry?)
  }

  /** From where it stood: only the client's leaving makes it cancelled, only a pread that gives nothing dries it, and a
      fault that ends it is explained. */
  predicate StepsSoundly(s: State, f: Id, a: ResponseStep, y: Response)
    requires f in s.resps
  {
    var x := s.resps[f];
    && (y.cancelled ==> x.cancelled || a.IsCancelled?)
    && (y.at.Dry? ==> x.at.Dry? || a == ReadsChunk(0, None))
    && (y.at.Ended? && y.at.fault.Some? && y.at != x.at ==> Explained(s, f, a, y.at.fault.value))
  }

  /** A step of response f leaves the others as they were, or wakes them. */
  ghost predicate OwnFacts(s: State, s': State, f: Id, a: ResponseStep) {
    && f in s'.resps
    && (forall g :: g in s'.resps && g != f ==> OnlyWoken(s, s', g))
    && if f in s.resps then StepsSoundly(s, f, a, s'.resps[f])
       else !s'.resps[f].cancelled && s'.resps[f].at.Lookup?
  }

  lemma ReplacedOne(s: State, s': State, f: Id, a: ResponseStep, y: Response)
    requires s'.resps == s.resps[f := y]
    requires if f in s.resps then StepsSoundly(s, f, a, y) else !y.cancelled && y.at.Lookup?
    ensures OwnFacts(s, s', f, a)
  {
  }

  lemma ArrivesFacts(s: State, s': State, f: Id, key: Key)
    requires Arrive(s, s', f, key)
    ensures OwnFacts(s, s', f, Arrives(key))
  {
    ReplacedOne(s, s', f, Arrives(key), s'.resps[f]);
  }

  lemma MetaFacts(s: State, s': State, f: Id, ok: bool)
    requires ReadMeta(s, s', f, ok)
    ensures OwnFacts(s, s', f, ReadsMeta(ok))
  {
    ReplacedOne(s, s', f, ReadsMeta(ok), s'.resps[f]);
  }

  lemma BlobFacts(s: State, s': State, f: Id, ok: bool)
    requires OpenBlob(s, s', f, ok)
    ensures OwnFacts(s, s', f, OpensBlob(ok))
  {
    var x := s.resps[f];
    if x.key in s.blobs && ok {
      ReplacedOne(s, s', f, OpensBlob(ok), x.(at := Opened(x.at.meta, s.blobs[x.key])));
    } else {
      ReplacedOne(s, s', f, OpensBlob(ok), Miss(x));
    }
  }

  lemma StatFacts(s: State, s': State, f: Id, ok: bool)
    requires StatBlob(s, s', f, ok)
    ensures OwnFacts(s, s', f, StatsBlob(ok))
  {
    ReplacedOne(s, s', f, StatsBlob(ok), s'.resps[f]);
  }

  lemma CopyFacts(s: State, s': State, f: Id, n: nat, fault: Option<Fault>)
    requires Copy(s, s', f, n, fault)
    ensures OwnFacts(s, s', f, Copies(n, fault))
  {
    ReplacedOne(s, s', f, Copies(n, fault), s'.resps[f]);
  }

  lemma JoinFacts(s: State, s': State, f: Id)
    requires Join(s, s', f)
    ensures OwnFacts(s, s', f, Joins)
  {
    var x := s.resps[f];
    if x.key in s.inflight && s.inflight[x.key] in s.dls && !s.dls[s.inflight[x.key]].done {
      ReplacedOne(s, s', f, Joins, x.(at := Registering, dl := Some(s.inflight[x.key])));
    } else if s.taken < MAX_CONCURRENT_DOWNLOADS {
      ReplacedOne(s, s', f, Joins, x.(at := Registering, dl := Some(s.next)));
    } else {
      ReplacedOne(s, s', f, Joins, x.(at := TurnedAway));
    }
  }

  lemma RegisterFacts(s: State, s': State, f: Id)
    requires Register(s, s', f)
    ensures OwnFacts(s, s', f, Registers)
  {
    ReplacedOne(s, s', f, Registers, s'.resps[f]);
  }

  lemma CancelFacts(s: State, s': State, f: Id)
    requires Cancel(s, s', f)
    ensures OwnFacts(s, s', f, IsCancelled)
  {
    ReplacedOne(s, s', f, IsCancelled, s'.resps[f]);
  }

  lemma CallbackFacts(s: State, s': State, f: Id)
    requires RunCallback(s, s', f)
    ensures OwnFacts(s, s', f, CallbackRuns)
  {
  }

  lemma FollowFacts(s: State, s': State, f: Id, dupOk: bool)
    requires Sound(s, f) && Follow(s, s', f, dupOk)
    ensures OwnFacts(s, s', f, Follows(dupOk))
  {
    ReplacedOne(s, s', f, Follows(dupOk), s'.resps[f]);
  }

  lemma TopFacts(s: State, s': State, f: Id)
    requires ReadTop(s, s', f)
    ensures OwnFacts(s, s', f, ReadsTop)
  {
    ReplacedOne(s, s', f, ReadsTop, s'.resps[f]);
  }

  lemma ChunkFacts(s: State, s': State, f: Id, n: nat, fault: Option<Fault>)
    requires ReadChunk(s, s', f, n, fault)
    ensures OwnFacts(s, s', f, ReadsChunk(n, fault))
  {
    ReplacedOne(s, s', f, ReadsChunk(n, fault), s'.resps[f]);
  }

  lemma DryFacts(s: State, s': State, f: Id)
    requires CheckDry(s, s', f)
    ensures OwnFacts(s, s', f, ChecksDry)
  {
    ReplacedOne(s, s', f, ChecksDry, s'.resps[f]);
  }

  lemma CatchFacts(s: State, s': State, f: Id)
    requires Catch(s, s', f)
    ensures OwnFacts(s, s', f, Catches)
  {
    ReplacedOne(s, s', f, Catches, s'.resps[f]);
  }

  lemma ConcludeFacts(s: State, s': State, f: Id)
    requires Sound(s, f) && Conclude(s, s', f)
    ensures OwnFacts(s, s', f, Concludes)
  {
    ReplacedOne(s, s', f, Concludes, s'.resps[f]);
  }

  lemma OwnStepFacts(s: State, s': State, f: Id, a: ResponseStep)
    requires f in s.resps ==> Sound(s, f)
    requires ResponseNext(s, s', f, a)
    ensures OwnFacts(s, s', f, a)
  {
    match a
    case Arrives(key) => ArrivesFacts(s, s', f, key);
    case ReadsMeta(ok) => MetaFacts(s, s', f, ok);
    case OpensBlob(ok) => BlobFacts(s, s', f, ok);
    case StatsBlob(ok) => StatFacts(s, s', f, ok);
    case Copies(n, fault) => CopyFacts(s, s', f, n, fault);
    case Joins => JoinFacts(s, s', f);
    case Registers => RegisterFacts(s, s', f);
    case IsCancelled => CancelFacts(s, s', f);
    case CallbackRuns => CallbackFacts(s, s', f);
    case Follows(dupOk) => FollowFacts(s, s', f, dupOk);
    case ReadsTop => TopFacts(s, s', f);
    case ReadsChunk(n, fault) => ChunkFacts(s, s', f, n, fault);
    case ChecksDry => DryFacts(s, s', f);
    case Catches => CatchFacts(s, s', f);
    case Concludes => ConcludeFacts(s, s', f);
  }

  lemma DownloadsOnlyWake(s: State, s': State, d: Id, a: DownloadStep, f: Id)
    requires DownloadNext(s, s', d, a) && f in s'.resps
    ensures OnlyWoken(s, s', f)
  {
  }

  /** What any step does to a response that is there after it. */
  lemma StepFacts(s: State, s': State, a: Step, f: Id)
    requires Inv(s) && Next(s, s', a) && f in s'.resps
    ensures if NotBy(a, f) then OnlyWoken(s, s', f) else OwnFacts(s, s', f, a.resp)
  {
    match a
    case OfDownload(d, dl) => DownloadsOnlyWake(s, s', d, dl, f);
    case OfResponse(g, resp) =>
      if g in s.resps {
        SoundInInv(s, g);
      }
      OwnStepFacts(s, s', g, resp);
    case OfEvictor(_, _, _, _) =>
    case ProcessKilled =>
  }

  // ------------------------------------------------------------------ over a run

  /** What the i-th step of a run did to response f, if that is there after it. */
  ghost predicate ToldAt(run: seq<State>, labels: seq<Step>, i: nat, f: Id)
    requires i + 1 < |run| && |labels| + 1 == |run|
  {
    f in run[i + 1].resps ==>
      if NotBy(labels[i], f) then OnlyWoken(run[i], run[i + 1], f)
      else OwnFacts(run[i], run[i + 1], f, labels[i].resp)
  }

  ghost predicate Told(run: seq<State>, labels: seq<Step>, f: Id) {
    && |run| == |labels| + 1 && run[0].resps == map[]
    && forall i :: 0 <= i < |labels| ==> ToldAt(run, labels, i, f)
  }

  lemma RunIsTold(run: seq<State>, labels: seq<Step>, f: Id)
    requires Labelled(run, labels)
    ensures Told(run, labels, f)
  {
    LabelledIsRun(run, labels);
    forall i | 0 <= i < |labels| ensures ToldAt(run, labels, i, f) {
      RunKeeps(run, i);
      assert Next(run[i], run[i + 1], labels[i]);
      if f in run[i + 1].resps {
        StepFacts(run[i], run[i + 1], labels[i], f);
      }
    }
  }

  lemma {:induction false} CancelledWasCancelled(run: seq<State>, labels: seq<Step>, i: nat, f: Id)
    requires Told(run, labels, f) && i < |run| && f in run[i].resps && run[i].resps[f].cancelled
    ensures HasCause(run, labels, i, f, Cancelled)
  {
    if i > 0 {
      assert ToldAt(run, labels, i - 1, f);
      if labels[i - 1] == OfResponse(f, IsCancelled) && f in run[i - 1].resps {
        CauseNow(run, labels, i - 1, f, Cancelled);
      } else {
        CancelledWasCancelled(run, labels, i - 1, f);
        CauseStays(run, labels, i - 1, f, Cancelled);
      }
    }
  }

  lemma {:induction false} DryWasDry(run: seq<State>, labels: seq<Step>, i: nat, f: Id)
    requires Told(run, labels, f) && i < |run| && f in run[i].resps && run[i].resps[f].at.Dry?
    ensures HasCause(run, labels, i, f, UnexpectedEof)
  {
    if i > 0 {
      assert ToldAt(run, labels, i - 1, f);
      if labels[i - 1] == OfResponse(f, ReadsChunk(0, None)) && f in run[i - 1].resps {
        CauseNow(run, labels, i - 1, f, UnexpectedEof);
      } else {
        DryWasDry(run, labels, i - 1, f);
        CauseStays(run, labels, i - 1, f, UnexpectedEof);
      }
    }
  }

  lemma ExplainedHasCause(run: seq<State>, labels: seq<Step>, i: nat, f: Id, a: ResponseStep, e: Fault)
    requires Told(run, labels, f) && i + 1 < |run| && labels[i] == OfResponse(f, a)
    requires f in run[i].resps && f in run[i + 1].resps && Explained(run[i], f, a, e)
    ensures HasCause(run, labels, i + 1, f, e)
  {
    if Causes(run[i], labels[i], f, e) {
      CauseNow(run, labels, i, f, e);
    } else if e == Cancelled && run[i].resps[f].cancelled {
      CancelledWasCancelled(run, labels, i, f);
      CauseStays(run, labels, i, f, e);
    } else {
      DryWasDry(run, labels, i, f);
      CauseStays(run, labels, i, f, e);
    }
  }

  lemma {:induction false} FaultIsExplained(run: seq<State>, labels: seq<Step>, i: nat, f: Id, e: Fault)
    requires Told(run, labels, f) && i < |run| && f in run[i].resps && run[i].resps[f].at == Ended(Some(e))
    ensures HasCause(run, labels, i, f, e)
  {
    if i > 0 {
      assert ToldAt(run, labels, i - 1, f);
      if f in run[i - 1].resps && run[i - 1].resps[f].at == Ended(Some(e)) {
        FaultIsExplained(run, labels, i - 1, f, e);
        CauseStays(run, labels, i - 1, f, e);
      } else {
        ExplainedHasCause(run, labels, i - 1, f, labels[i - 1].resp, e);
      }
    }
  }

  /** A response that ends with a fault has its cause, in this very request: its client left, the
      download it followed had failed with just that fault, a step of its own brought it, or the
      finished blob was not there to be served. */
  lemma FaultHasCause(run: seq<State>, labels: seq<Step>, i: nat, f: Id, e: Fault)
    requires Labelled(run, labels) && i < |run| && f in run[i].resps && run[i].resps[f].at == Ended(Some(e))
    ensures HasCause(run, labels, i, f, e)
  {
    RunIsTold(run, labels, f);
    FaultIsExplained(run, labels, i, f, e);
  }

  // ------------------------------------------------------------------ and so has the error of an entry

  /** The download has failed with e, or is about to announce it. */
  predicate Marked(s: State, d: Id, e: Fault) {
    d in s.dls && (s.dls[d].err == Some(e) || (s.dls[d].finalErr == Some(e) && !s.dls[d].bodyComplete))
  }

  lemma OwnMark(s: State, s': State, d: Id, a: DownloadStep, e: Fault)
    requires d in s.dls && Shape(s.dls[d]) && DownloadNext(s, s', d, a) && Marked(s', d, e) && a != Fail(e)
    ensures Marked(s, d, e)
  {
  }

  lemma OthersMarkNothing(s: State, s': State, o: Id, a: DownloadStep, d: Id)
    requires DownloadNext(s, s', o, a) && o != d
    ensures d in s.dls <==> d in s'.dls
    ensures d in s.dls ==> s'.dls[d] == s.dls[d]
  {
  }

  lemma ResponsesMarkNothing(s: State, s': State, f: Id, a: ResponseStep, d: Id, e: Fault)
    requires ResponseNext(s, s', f, a) && Marked(s', d, e) && s.next !in s.dls
    ensures Marked(s, d, e)
  {
    if a.Joins? {
      JoinMarksNothing(s, s', f, d, e);
    }
  }

  lemma JoinMarksNothing(s: State, s': State, f: Id, d: Id, e: Fault)
    requires Join(s, s', f) && Marked(s', d, e)
    ensures Marked(s, d, e)
  {
    JoinedDownloads(s, s', f);
  }

  lemma MarkedBefore(s: State, s': State, a: Step, d: Id, e: Fault)
    requires Inv(s) && Next(s, s', a) && Marked(s', d, e) && a != OfDownload(d, Fail(e))
    ensures Marked(s, d, e)
  {
    match a
    case OfDownload(o, dl) =>
      if o == d {
        assert DlOk(s, d);
        OwnMark(s, s', d, dl, e);
      } else {
        OthersMarkNothing(s, s', o, dl, d);
      }
    case OfResponse(f, resp) =>
      StartIsFresh(s);
      ResponsesMarkNothing(s, s', f, resp, d, e);
    case OfEvictor(_, _, _, _) =>
    case ProcessKilled =>
  }

  ghost predicate MarkTold(run: seq<State>, labels: seq<Step>, i: nat, d: Id, e: Fault)
    requires i + 1 < |run| && |labels| + 1 == |run|
  {
    Marked(run[i + 1], d, e) && labels[i] != OfDownload(d, Fail(e)) ==> Marked(run[i], d, e)
  }

  lemma {:induction false} FailedSomewhere(run: seq<State>, labels: seq<Step>, i: nat, d: Id, e: Fault)
    requires |labels| + 1 == |run| && i < |run| && run[0].dls == map[] && Marked(run[i], d, e)
    requires forall j :: 0 <= j < |labels| ==> MarkTold(run, labels, j, d, e)
    ensures OfDownload(d, Fail(e)) in labels[..i]
  {
    if i > 0 {
      assert MarkTold(run, labels, i - 1, d, e);
      if labels[i - 1] == OfDownload(d, Fail(e)) {
        assert labels[..i][i - 1] == labels[i - 1];
      } else {
        FailedSomewhere(run, labels, i - 1, d, e);
        assert labels[..i - 1] <= labels[..i];
      }
    }
  }

  /** An entry's error, which every follower gets, is the very one with which its download failed. */
  lemma EntryErrorHasCause(run: seq<State>, labels: seq<Step>, i: nat, d: Id, e: Fault)
    requires Labelled(run, labels) && i < |run| && d in run[i].dls && run[i].dls[d].err == Some(e)
    ensures OfDownload(d, Fail(e)) in labels[..i]
  {
    LabelledIsRun(run, labels);
    forall j | 0 <= j < |labels| ensures MarkTold(run, labels, j, d, e) {
      RunKeeps(run, j);
      assert Next(run[j], run[j + 1], labels[j]);
      if Marked(run[j + 1], d, e) && labels[j] != OfDownload(d, Fail(e)) {
        MarkedBefore(run[j], run[j + 1], labels[j], d, e);
      }
    }
    FailedSomewhere(run, labels, i, d, e);
  }
}
