/** From the upstream's body to what a client can decode: the writers of a download are runs of the cache's download
    steps, and what those promise and seal is what the writers' account says. */
module EndToEnd {
  import opened CacheFollowers
  import opened CacheInvariants
  import opened CacheState
  import opened CacheSteps
  import opened CacheTheorems
  import opened Ingest
  import opened Options

  // ------------------------------------------------------------------ what a download did to its body

  predicate BodyStep(a: DownloadStep) {
    a.Write? || a.Publish? || a.Eof? || a.Seal?
  }

  /** What those steps wrote. */
  function Written(log: seq<DownloadStep>): Bytes {
    if log == [] then []
    else Written(log[..|log| - 1]) + if log[|log| - 1].Write? then log[|log| - 1].chunk else []
  }

  /** What they promised last. */
  function SizeOf(log: seq<DownloadStep>): nat {
    if log == [] then 0
    else
      var before, a := log[..|log| - 1], log[|log| - 1];
      if a.Publish? || a.Seal? then |Written(before)| else SizeOf(before)
  }

  predicate IsSealed(log: seq<DownloadStep>) {
    log != [] && log[|log| - 1].Seal?
  }

  lemma OneMore(log: seq<DownloadStep>, a: DownloadStep)
    ensures Written(log + [a]) == Written(log) + if a.Write? then a.chunk else []
    ensures SizeOf(log + [a]) == if a.Publish? || a.Seal? then |Written(log)| else SizeOf(log)
    ensures IsSealed(log + [a]) == a.Seal?
  {
    assert (log + [a])[..|log|] == log;
  }

  // ------------------------------------------------------------------ an account as steps

  function Growth(m: Moment, m': Moment): Bytes
    requires m.file <= m'.file
  {
    m'.file[|m.file|..]
  }

  predicate Growing(ms: seq<Moment>) {
    forall j :: 0 <= j < |ms| - 1 ==> ms[j].file <= ms[j + 1].file
  }

  /** Each moment after the first is a write and a promise. */
  function Promises(ms: seq<Moment>): seq<DownloadStep>
    requires Growing(ms)
  {
    if |ms| <= 1 then []
    else Promises(ms[..|ms| - 1]) + [Write(Growth(ms[|ms| - 2], ms[|ms| - 1])), Publish]
  }

  /** The last one is a write, and when the body ended well the end of it and the seal. */
  function StepsOf(a: Account): seq<DownloadStep>
    requires Growing(a.moments) && |a.moments| > 1
  {
    var n := |a.moments|;
    Promises(a.moments[..n - 1]) + [Write(Growth(a.moments[n - 2], a.moments[n - 1]))]
    + if a.complete then [Eof, Seal] else []
  }

  /** An account of a body from its first byte on. */
  ghost predicate FromScratch(a: Account) {
    a.Told() && Growing(a.moments) && a.moments[0] == Moment([], 0, 0)
  }

  lemma ToldGrows(a: Account)
    requires a.Told()
    ensures Growing(a.moments)
  {
    forall j | 0 <= j < |a.moments| - 1 ensures a.moments[j].file <= a.moments[j + 1].file {
      assert a.Advances(a.moments[j], a.moments[j + 1]);
    }
  }

  lemma {:induction false} PromisesWrite(ms: seq<Moment>)
    requires Growing(ms) && ms != [] && ms[0].file == []
    ensures Written(Promises(ms)) == ms[|ms| - 1].file && !IsSealed(Promises(ms))
    ensures |ms| > 1 ==> SizeOf(Promises(ms)) == |ms[|ms| - 1].file|
    ensures |ms| == 1 ==> SizeOf(Promises(ms)) == 0
  {
    if |ms| <= 1 {
    } else {
      var before, m, m' := ms[..|ms| - 1], ms[|ms| - 2], ms[|ms| - 1];
      PromisesWrite(before);
      TwoMore(Promises(before), Growth(m, m'));
      assert m.file + Growth(m, m') == m'.file;
    }
  }

  lemma TwoMore(log: seq<DownloadStep>, chunk: Bytes)
    ensures var log' := log + [Write(chunk), Publish];
      Written(log') == Written(log) + chunk && SizeOf(log') == |Written(log')| && !IsSealed(log')
  {
    assert log + [Write(chunk), Publish] == log + [Write(chunk)] + [Publish];
    OneMore(log, Write(chunk));
    OneMore(log + [Write(chunk)], Publish);
  }

  /** What has been promised of `log`'s writes is exactly `file`. */
  predicate Promised(log: seq<DownloadStep>, file: Bytes) {
    SizeOf(log) == |file| && file <= Written(log)
  }

  ghost predicate PromisedOneOf(log: seq<DownloadStep>, ms: seq<Moment>) {
    SizeOf(log) == 0 || exists j :: 0 < j < |ms| && Promised(log, ms[j].file)
  }

  lemma PrefixCases(log: seq<DownloadStep>, a: seq<DownloadStep>, b: seq<DownloadStep>)
    requires log <= a + b
    ensures log <= a || (|log| > |a| && log == a + b[..|log| - |a|])
  {
    if |log| <= |a| {
      assert log == (a + b)[..|log|] == a[..|log|];
    } else {
      assert log == (a + b)[..|log|];
    }
  }

  lemma {:induction false} PrefixOfPromises(ms: seq<Moment>, log: seq<DownloadStep>)
    requires Growing(ms) && ms != [] && ms[0].file == [] && log <= Promises(ms)
    ensures !IsSealed(log) && PromisedOneOf(log, ms)
  {
    if |ms| <= 1 {
    } else {
      var before, grown := ms[..|ms| - 1], Growth(ms[|ms| - 2], ms[|ms| - 1]);
      PrefixCases(log, Promises(before), [Write(grown), Publish]);
      if log <= Promises(before) {
        PrefixOfPromises(before, log);
      } else if |log| == |Promises(before)| + 1 {
        assert log == Promises(before) + [Write(grown)];
        Unpromised(before, Write(grown));
      } else {
        assert log == Promises(ms);
        PromisesWrite(ms);
      }
    }
  }

  /** A step that promises nothing leaves the last promise standing. */
  lemma Unpromised(ms: seq<Moment>, a: DownloadStep)
    requires Growing(ms) && ms != [] && ms[0].file == [] && (a.Write? || a.Eof?)
    ensures var log := Promises(ms) + [a]; !IsSealed(log) && PromisedOneOf(log, ms)
  {
    PromisesWrite(ms);
    OneMore(Promises(ms), a);
    if |ms| > 1 {
      assert Promised(Promises(ms) + [a], ms[|ms| - 1].file);
    }
  }

  lemma StillUnpromised(log: seq<DownloadStep>, ms: seq<Moment>, a: DownloadStep)
    requires PromisedOneOf(log, ms) && (a.Write? || a.Eof?)
    ensures !IsSealed(log + [a]) && PromisedOneOf(log + [a], ms)
  {
    OneMore(log, a);
    if SizeOf(log) != 0 {
      var j :| 0 < j < |ms| && Promised(log, ms[j].file);
      assert Promised(log + [a], ms[j].file);
    }
  }

  /** Everything promised while the steps of an account are taken is readable, and a seal means all of
      it was written. */
  ghost predicate Backed(a: Account, log: seq<DownloadStep>)
    requires a.moments != []
  {
    && (SizeOf(log) == 0 ||
        exists j :: 0 < j < |a.moments| && a.Readable(a.moments[j]) && Promised(log, a.moments[j].file))
    && (IsSealed(log) ==> a.complete && Written(log) == a.Last().file)
  }

  lemma EarlyIsBacked(a: Account, log: seq<DownloadStep>)
    requires a.Told() && !IsSealed(log) && PromisedOneOf(log, a.moments[..|a.moments| - 1])
    ensures Backed(a, log)
  {
    var ms := a.moments[..|a.moments| - 1];
    if SizeOf(log) != 0 {
      var j :| 0 < j < |ms| && Promised(log, ms[j].file);
      assert a.Readable(a.moments[j]);
    }
  }

  /** The steps of an account, cut before its last two or three. */
  lemma StepsAre(a: Account)
    requires FromScratch(a)
    ensures var n := |a.moments|;
      var ms, write := a.moments[..n - 1], Write(Growth(a.moments[n - 2], a.moments[n - 1]));
      StepsOf(a) == if a.complete then Promises(ms) + [write] + [Eof] + [Seal] else Promises(ms) + [write]
  {
  }

  lemma PrefixOfThree(log: seq<DownloadStep>, early: seq<DownloadStep>, x: DownloadStep, y: DownloadStep,
          z: DownloadStep)
    requires log <= early + [x] + [y] + [z]
    ensures log <= early || log == early + [x] || log == early + [x] + [y] || log == early + [x] + [y] + [z]
  {
    PrefixCases(log, early + [x] + [y], [z]);
    if log <= early + [x] + [y] {
      PrefixCases(log, early + [x], [y]);
      if log <= early + [x] {
        PrefixCases(log, early, [x]);
      }
    }
  }

  lemma StepsAreBacked(a: Account, log: seq<DownloadStep>)
    requires FromScratch(a) && log <= StepsOf(a)
    ensures Backed(a, log)
  {
    var n := |a.moments|;
    var ms, write := a.moments[..n - 1], Write(Growth(a.moments[n - 2], a.moments[n - 1]));
    StepsAre(a);
    assert log <= Promises(ms) + [write] + [Eof] + [Seal];
    PrefixOfThree(log, Promises(ms), write, Eof, Seal);
    Unpromised(ms, write);
    StillUnpromised(Promises(ms) + [write], ms, Eof);
    if log <= Promises(ms) {
      PrefixOfPromises(ms, log);
      EarlyIsBacked(a, log);
    } else if log == StepsOf(a) && a.complete {
      AllIsWritten(a);
    } else {
      EarlyIsBacked(a, log);
    }
  }

  lemma LastPromise(a: Account)
    requires FromScratch(a)
    ensures var n := |a.moments|;
      var log := Promises(a.moments[..n - 1]) + [Write(Growth(a.moments[n - 2], a.moments[n - 1]))];
      Written(log) == a.Last().file && a.Last().size == if a.complete then |Written(log)| else SizeOf(log)
  {
    var n := |a.moments|;
    var ms, grown := a.moments[..n - 1], Growth(a.moments[n - 2], a.moments[n - 1]);
    PromisesWrite(ms);
    OneMore(Promises(ms), Write(grown));
    assert a.moments[n - 2].file + grown == a.Last().file;
    if !a.complete && n > 2 {
      assert a.Readable(a.moments[n - 2]);
    }
  }

  lemma WholeIsBacked(a: Account, log: seq<DownloadStep>)
    requires a.Told() && a.complete && Written(log) == a.Last().file && SizeOf(log) == |a.Last().file|
    ensures Backed(a, log)
  {
    assert Promised(log, a.moments[|a.moments| - 1].file);
  }

  lemma AllIsWritten(a: Account)
    requires FromScratch(a) && a.complete
    ensures Written(StepsOf(a)) == a.Last().file && IsSealed(StepsOf(a)) && Backed(a, StepsOf(a))
  {
    var n := |a.moments|;
    var log := Promises(a.moments[..n - 1]) + [Write(Growth(a.moments[n - 2], a.moments[n - 1]))];
    StepsAre(a);
    LastPromise(a);
    OneMore(log, Eof);
    OneMore(log + [Eof], Seal);
    WholeIsBacked(a, StepsOf(a));
  }

  // ------------------------------------------------------------------ an account can be taken as steps

  /** The state after one of those steps. */
  ghost function After(s: State, d: Id, a: DownloadStep): State
    requires BodyStep(a) && d in s.dls && d in s.bodies
  {
    match a
    case Write(chunk) => s.(bodies := s.bodies[d := s.bodies[d].(bytes := s.bodies[d].bytes + chunk)])
    case Publish => Put(s, d, s.dls[d].(size := |s.bodies[d].bytes|)).(resps := Wake(s.resps, d))
    case Eof => Put(s, d, s.dls[d].(stage := Stage.Drained))
    case _ => Put(s, d, s.dls[d].(stage := Sealed, size := |s.bodies[d].bytes|, bodyComplete := true))
                .(resps := Wake(s.resps, d), bodies := s.bodies[d := s.bodies[d].(complete := true)])
  }

  /** A sequence of states that takes `steps` one by one. */
  ghost predicate Takes(path: seq<State>, d: Id, steps: seq<DownloadStep>) {
    && |path| == |steps| + 1
    && forall i :: 0 <= i < |steps| ==> DownloadNext(path[i], path[i + 1], d, steps[i])
  }

  /** A download whose body is being filled, with `log` behind it. */
  predicate Filling(s: State, d: Id, log: seq<DownloadStep>) {
    && At(s, d, Stage.Reading) && d in s.bodies && !s.bodies[d].complete
    && s.bodies[d].bytes == Written(log) && s.dls[d].size == SizeOf(log)
  }

  ghost predicate Taken(path: seq<State>, s: State, d: Id, log: seq<DownloadStep>) {
    Takes(path, d, log) && path[0] == s && Filling(path[|log|], d, log)
  }

  lemma TakeOne(path: seq<State>, s: State, d: Id, log: seq<DownloadStep>, a: DownloadStep) returns (path': seq<State>)
    requires Taken(path, s, d, log) && (a.Write? || a.Publish?)
    ensures Taken(path', s, d, log + [a])
  {
    OneMore(log, a);
    path' := path + [After(path[|log|], d, a)];
  }

  lemma TakeTwo(path: seq<State>, s: State, d: Id, log: seq<DownloadStep>, grown: Bytes) returns (path': seq<State>)
    requires Taken(path, s, d, log)
    ensures Taken(path', s, d, log + [Write(grown), Publish])
  {
    path' := TakeOne(path, s, d, log, Write(grown));
    path' := TakeOne(path', s, d, log + [Write(grown)], Publish);
    assert log + [Write(grown)] + [Publish] == log + [Write(grown), Publish];
  }

  lemma {:induction false} TakePromises(s: State, d: Id, ms: seq<Moment>) returns (path: seq<State>)
    requires Growing(ms) && Filling(s, d, [])
    ensures Taken(path, s, d, Promises(ms))
  {
    if |ms| <= 1 {
      path := [s];
    } else {
      path := TakePromises(s, d, ms[..|ms| - 1]);
      path := TakeTwo(path, s, d, Promises(ms[..|ms| - 1]), Growth(ms[|ms| - 2], ms[|ms| - 1]));
    }
  }

  /** Where the steps of an account lead: the same file and the same promise, sealed exactly when the
      body ended well. */
  predicate LeavesAccount(s: State, d: Id, a: Account)
    requires a.moments != []
  {
    && d in s.bodies && s.bodies[d].bytes == a.Last().file && s.bodies[d].complete == a.complete
    && d in s.dls && s.dls[d].size == a.Last().size
  }

  lemma TakeWritten(s: State, d: Id, a: Account) returns (path: seq<State>, log: seq<DownloadStep>)
    requires FromScratch(a) && Filling(s, d, [])
    ensures Taken(path, s, d, log) && StepsOf(a) == if a.complete then log + [Eof] + [Seal] else log
    ensures Written(log) == a.Last().file && a.Last().size == if a.complete then |Written(log)| else SizeOf(log)
  {
    var n := |a.moments|;
    var ms, write := a.moments[..n - 1], Write(Growth(a.moments[n - 2], a.moments[n - 1]));
    path := TakePromises(s, d, ms);
    path := TakeOne(path, s, d, Promises(ms), write);
    log := Promises(ms) + [write];
    StepsAre(a);
    LastPromise(a);
  }

  lemma TakeEnd(path: seq<State>, s: State, d: Id, log: seq<DownloadStep>) returns (path': seq<State>)
    requires Taken(path, s, d, log)
    ensures Takes(path', d, log + [Eof] + [Seal]) && path'[0] == s
    ensures var s' := path'[|log| + 2];
      && d in s'.bodies && s'.bodies[d].bytes == Written(log) && s'.bodies[d].complete
      && d in s'.dls && s'.dls[d].size == |Written(log)|
  {
    var s1 := After(path[|log|], d, Eof);
    path' := path + [s1, After(s1, d, Seal)];
  }

  lemma SealedLeaves(s: State, d: Id, log: seq<DownloadStep>, a: Account)
    requires d in s.bodies && s.bodies[d].bytes == Written(log) && s.bodies[d].complete
    requires d in s.dls && s.dls[d].size == |Written(log)|
    requires a.moments != [] && a.complete && Written(log) == a.Last().file && |Written(log)| == a.Last().size
    ensures LeavesAccount(s, d, a)
  {
  }

  lemma UnsealedLeaves(s: State, d: Id, log: seq<DownloadStep>, a: Account)
    requires Filling(s, d, log) && a.moments != [] && !a.complete
    requires Written(log) == a.Last().file && SizeOf(log) == a.Last().size
    ensures LeavesAccount(s, d, a)
  {
  }

  /** Whatever the writers do to a body is a run of the download's steps. */
  lemma AccountIsARun(s: State, d: Id, a: Account) returns (path: seq<State>)
    requires FromScratch(a) && Filling(s, d, [])
    ensures Takes(path, d, StepsOf(a)) && path[0] == s && LeavesAccount(path[|StepsOf(a)|], d, a)
  {
    var log;
    path, log := TakeWritten(s, d, a);
    if a.complete {
      assert StepsOf(a) == log + [Eof] + [Seal] && |StepsOf(a)| == |log| + 2;
      path := TakeEnd(path, s, d, log);
      SealedLeaves(path[|log| + 2], d, log, a);
    } else {
      UnsealedLeaves(path[|log|], d, log, a);
    }
  }

  // ------------------------------------------------------------------ runs whose downloads are fed by the writers

  predicate OnBody(a: Step, d: Id) {
    a.OfDownload? && a.d == d && BodyStep(a.dl)
  }

  /** What download d has done to its body so far. */
  function Log(labels: seq<Step>, d: Id): seq<DownloadStep> {
    if labels == [] then []
    else
      var a := labels[|labels| - 1];
      Log(labels[..|labels| - 1], d) + if OnBody(a, d) then [a.dl] else []
  }

  /** A body is what its download's log wrote; its promise, while the download lives, is what the log promised last. */
  predicate Logged(s: State, d: Id, log: seq<DownloadStep>) {
    && (d !in s.bodies ==> log == [])
    && (d in s.bodies ==> s.bodies[d].bytes == Written(log) && (s.bodies[d].complete ==> IsSealed(log)))
    && (d in s.dls ==> s.dls[d].size == SizeOf(log))
  }

  lemma BodyStepIsLogged(s: State, s': State, d: Id, a: DownloadStep, log: seq<DownloadStep>)
    requires DownloadsOk(s) && DownloadNext(s, s', d, a) && BodyStep(a) && Logged(s, d, log)
    ensures Logged(s', d, log + [a])
  {
    assert d in s.dls && DlOk(s, d);
    OneMore(log, a);
  }

  lemma QuietStepIsLogged(s: State, s': State, d: Id, a: DownloadStep, log: seq<DownloadStep>)
    requires DownloadsOk(s) && DownloadNext(s, s', d, a) && !BodyStep(a) && Logged(s, d, log)
    ensures Logged(s', d, log)
  {
    assert d in s.dls && DlOk(s, d);
  }

  /** Everyone else leaves a download's body and promise alone. */
  predicate Untouched(s: State, s': State, d: Id) {
    && (d in s'.bodies <==> d in s.bodies) && (d in s.bodies ==> s'.bodies[d] == s.bodies[d])
    && (d in s'.dls ==> if d in s.dls then s'.dls[d].size == s.dls[d].size else d !in s.bodies && s'.dls[d].size == 0)
  }

  lemma UntouchedIsLogged(s: State, s': State, d: Id, log: seq<DownloadStep>)
    requires Logged(s, d, log) && Untouched(s, s', d)
    ensures Logged(s', d, log)
  {
  }

  lemma FrameTouchesNothing(s: State, s': State, d: Id, o: Id)
    requires Frame(s, s', o) && o != d
    ensures Untouched(s, s', d)
  {
  }

  lemma OtherDownload(s: State, s': State, d: Id, o: Id, a: DownloadStep)
    requires DownloadsOk(s) && DownloadNext(s, s', o, a) && o != d
    ensures Untouched(s, s', d)
  {
    OwnStep(s, s', o, a);
    FrameTouchesNothing(s, s', d, o);
  }

  ghost predicate Numbered(s: State) {
    (forall d :: d in s.bodies ==> d < s.next) && (forall d :: d in s.dls ==> d < s.next)
  }

  lemma InvIsNumbered(s: State)
    requires DownloadsOk(s) && DiskOk(s)
    ensures Numbered(s)
  {
    forall d | d in s.dls ensures d < s.next {
      assert DlOk(s, d);
    }
  }

  lemma JoinTouchesNothing(s: State, s': State, f: Id, d: Id)
    requires Numbered(s) && Join(s, s', f)
    ensures Untouched(s, s', d)
  {
    JoinedDownloads(s, s', f);
    JoiningWritesNothing(s, s', f);
  }

  /** Nothing but joining starts a download. */
  lemma OthersStartNothing(s: State, s': State, f: Id, a: ResponseStep)
    requires ResponseNext(s, s', f, a) && !a.Joins?
    ensures s'.dls == s.dls && s'.bodies == s.bodies
  {
  }

  lemma ResponseTouchesNothing(s: State, s': State, f: Id, a: ResponseStep, d: Id)
    requires Numbered(s) && ResponseNext(s, s', f, a)
    ensures Untouched(s, s', d)
  {
    if a.Joins? {
      JoinTouchesNothing(s, s', f, d);
    } else {
      OthersStartNothing(s, s', f, a);
    }
  }

  lemma StepIsLogged(s: State, s': State, a: Step, d: Id, log: seq<DownloadStep>)
    requires Inv(s) && Next(s, s', a) && Logged(s, d, log)
    ensures Logged(s', d, log + if OnBody(a, d) then [a.dl] else [])
  {
    assert log + [] == log;
    if a.OfDownload? && a.d == d {
      if BodyStep(a.dl) {
        BodyStepIsLogged(s, s', d, a.dl, log);
      } else {
        QuietStepIsLogged(s, s', d, a.dl, log);
      }
    } else if a.OfDownload? {
      OtherDownload(s, s', d, a.d, a.dl);
    } else if a.OfResponse? {
      InvIsNumbered(s);
      ResponseTouchesNothing(s, s', a.f, a.resp, d);
    }
  }

  lemma {:induction false} RunIsLogged(run: seq<State>, labels: seq<Step>, i: nat, d: Id)
    requires Labelled(run, labels) && i < |run|
    ensures Logged(run[i], d, Log(labels[..i], d))
  {
    if i == 0 {
      assert labels[..0] == [];
    } else {
      RunIsLogged(run, labels, i - 1, d);
      LabelledIsRun(run, labels);
      RunKeeps(run, i - 1);
      assert labels[..i][..i - 1] == labels[..i - 1];
      assert Next(run[i - 1], run[i - 1 + 1], labels[i - 1]);
      StepIsLogged(run[i - 1], run[i], labels[i - 1], d, Log(labels[..i - 1], d));
    }
  }

  /** The next step that the writers of download d take at its body. */
  ghost predicate IsNext(a: DownloadStep, account: Account, log: seq<DownloadStep>) {
    FromScratch(account) && |log| < |StepsOf(account)| && a == StepsOf(account)[|log|]
  }

  /** A run beside the writers: whenever a download does something to its body, it is the next thing its writers do. */
  ghost predicate Driven(labels: seq<Step>, accounts: map<Id, Account>) {
    forall i, d :: 0 <= i < |labels| && OnBody(labels[i], d) ==>
        d in accounts && IsNext(labels[i].dl, accounts[d], Log(labels[..i], d))
  }

  lemma LogGrows(labels: seq<Step>, i: nat, d: Id)
    requires i < |labels|
    ensures Log(labels[..i + 1], d) == Log(labels[..i], d) + if OnBody(labels[i], d) then [labels[i].dl] else []
  {
    assert labels[..i + 1][..i] == labels[..i];
  }

  lemma OneFurther(account: Account, log: seq<DownloadStep>, a: DownloadStep)
    requires IsNext(a, account, log) && log <= StepsOf(account)
    ensures log + [a] <= StepsOf(account)
  {
  }

  /** Then what a download has done to its body so far is the beginning of its writers' account. */
  lemma {:induction false} DrivenIsFed(labels: seq<Step>, accounts: map<Id, Account>, i: nat, d: Id)
    requires Driven(labels, accounts) && i <= |labels|
    ensures var log := Log(labels[..i], d);
      log == [] || (d in accounts && FromScratch(accounts[d]) && log <= StepsOf(accounts[d]))
  {
    if i == 0 {
      assert labels[..0] == [];
    } else {
      var before := Log(labels[..i - 1], d);
      DrivenIsFed(labels, accounts, i - 1, d);
      LogGrows(labels, i - 1, d);
      if OnBody(labels[i - 1], d) {
        assert IsNext(labels[i - 1].dl, accounts[d], before);
        OneFurther(accounts[d], before, labels[i - 1].dl);
      }
    }
  }

  /** All that the upstream sent for one download of the response's key can be read from what the client got. */
  ghost predicate GotUpstreamBody(s: State, x: Response, accounts: map<Id, Account>) {
    exists d :: WholeBlob(s, x.key, d) && d in accounts && accounts[d].complete
                && accounts[d].Reads(x.sent) == Concat(accounts[d].chunks)
  }

  /** From the upstream to the client: a response that ends without an error has carried a file from
      which the whole body that the upstream sent, to its clean end, can be read - joined in flight or
      hit in the cache, now or after restarts. */
  lemma CleanEndIsTheUpstreamBody(run: seq<State>, labels: seq<Step>, i: nat, f: Id, accounts: map<Id, Account>)
    requires Labelled(run, labels) && i < |run| && Driven(labels, accounts)
    requires f in run[i].resps && run[i].resps[f].at == Ended(None)
    ensures GotUpstreamBody(run[i], run[i].resps[f], accounts)
  {
    LabelledIsRun(run, labels);
    WholeOrFaulty(run, i, f);
    var s, x := run[i], run[i].resps[f];
    var d :| WholeBlob(s, x.key, d) && x.sent == s.bodies[d].bytes;
    CompleteIsTheUpstreamBody(run, labels, i, d, accounts);
    assert WholeBlob(s, x.key, d);
  }

  lemma CompleteIsTheUpstreamBody(run: seq<State>, labels: seq<Step>, i: nat, d: Id, accounts: map<Id, Account>)
    requires Labelled(run, labels) && i < |run| && Driven(labels, accounts)
    requires d in run[i].bodies && run[i].bodies[d].complete
    ensures d in accounts && accounts[d].complete
    ensures accounts[d].Reads(run[i].bodies[d].bytes) == Concat(accounts[d].chunks)
  {
    var log := Log(labels[..i], d);
    RunIsLogged(run, labels, i, d);
    DrivenIsFed(labels, accounts, i, d);
    var a := accounts[d];
    StepsAreBacked(a, log);
    assert a.chunks[..|a.chunks|] == a.chunks;
  }

  /** All of the first `k` pieces, and nothing else, can be read from what the client got. */
  predicate GotPieces(a: Account, sent: Bytes, k: nat) {
    k <= |a.chunks| && a.Reads(sent) == Concat(a.chunks[..k])
  }

  /** A follower that has caught up can read all that had arrived when the download last promised something: the encoder
      keeps nothing back from it. */
  lemma CaughtUpIsReadable(run: seq<State>, labels: seq<Step>, i: nat, f: Id, accounts: map<Id, Account>)
    requires Labelled(run, labels) && i < |run| && Driven(labels, accounts)
    requires f in run[i].resps && ReadingSpot(run[i].resps[f].at)
    ensures var s, x := run[i], run[i].resps[f];
      && x.dl.Some? && x.dl.value in s.dls
      && (x.off == s.dls[x.dl.value].size && x.sent != [] ==>
            x.dl.value in accounts && exists k :: GotPieces(accounts[x.dl.value], x.sent, k))
  {
    LabelledIsRun(run, labels);
    RunKeeps(run, i);
    var s, x := run[i], run[i].resps[f];
    assert RespOk(s, f);
    var d := x.dl.value;
    if x.off == s.dls[d].size && x.sent != [] {
      RunIsLogged(run, labels, i, d);
      DrivenIsFed(labels, accounts, i, d);
      PromisedIsReadable(accounts[d], Log(labels[..i], d), x.sent);
    }
  }

  lemma PromisedIsReadable(a: Account, log: seq<DownloadStep>, sent: Bytes)
    requires FromScratch(a) && log <= StepsOf(a) && sent != []
    requires |sent| == SizeOf(log) && sent <= Written(log)
    ensures exists k :: GotPieces(a, sent, k)
  {
    StepsAreBacked(a, log);
    var j :| 0 < j < |a.moments| && a.Readable(a.moments[j]) && Promised(log, a.moments[j].file);
    assert sent == a.moments[j].file;
    assert GotPieces(a, sent, a.moments[j].taken);
  }

  /** One download, written by the real chain: its account is a run of the download's steps from any state in which the
      body is about to be filled, and ends where those steps end. */
  method Ingested(enc: Encoder, ghost dec: Decoder, compress: bool, room: nat, chunks: seq<Bytes>, eof: bool,
          ghost s: State, ghost d: Id)
    returns (bodyComplete: bool, ghost account: Account, ghost path: seq<State>)
    requires Streaming(enc, dec) && Filling(s, d, [])
    ensures FromScratch(account) && account.chunks == chunks && account.complete == bodyComplete
    ensures bodyComplete <==> eof && |Stored(compress, enc, chunks)| <= room
    ensures bodyComplete ==> account.Last().file == Stored(compress, enc, chunks)
    ensures Takes(path, d, StepsOf(account)) && path[0] == s && LeavesAccount(path[|StepsOf(account)|], d, account)
  {
    var chain := new Chain(enc, dec, compress, room);
    bodyComplete, account := chain.Pump(chunks, eof);
    ToldGrows(account);
    path := AccountIsARun(s, d, account);
  }
}
