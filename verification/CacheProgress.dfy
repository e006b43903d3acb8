/** What the streaming cache is for: a client that stays, of a download that does not fail, gets
    everything there is by its own steps alone - from a download in progress all that has been
    published, from a finished one the whole body. */
module CacheProgress {
  import opened CacheFollowers
  import opened CacheInvariants
  import opened CacheState
  import opened CacheSteps
  import opened CacheTheorems
  import opened Options

  /** A step that goes well: nothing fails, and a pread below the published size gives something. */
  predicate GoesWell(a: ResponseStep) {
    match a
    case ReadsMeta(ok) => ok
    case OpensBlob(ok) => ok
    case StatsBlob(ok) => ok
    case Copies(_, fault) => fault == None
    case Follows(dupOk) => dupOk
    case ReadsChunk(n, fault) => fault == None && n > 0
    case _ => true
  }

  /** The finished blob of a key, as an openCached finds it: a document with a usable status, and a blob of its size. */
  predicate Servable(s: State, key: Key) {
    && key in s.metas && s.metas[key].Full? && 100 <= s.metas[key].meta.status <= 999
    && HasBlob(s, key, s.metas[key].meta.size)
  }

  predicate HasBlob(s: State, key: Key, size: nat) {
    key in s.blobs && s.blobs[key] in s.bodies && |s.bodies[s.blobs[key]].bytes| == size
  }

  /** A follower of a download that has not failed and can still be read: through its descriptor, or as
      a finished blob. */
  predicate Followable(s: State, x: Response) {
    Follower(s, x) && s.dls[x.dl.value].err == None && s.dls[x.dl.value].headersReady
  }

  /** Nothing stands in the way of this response. */
  predicate Undisturbed(s: State, f: Id) {
    && f in s.resps && !s.resps[f].cancelled
    && var x := s.resps[f];
      match x.at
      case Lookup => Servable(s, x.key)
      case HaveMeta(meta) => HasBlob(s, x.key, meta.size)
      case Opened(meta, ino) => ino in s.bodies && |s.bodies[ino].bytes| == meta.size
      case Copying => true
      case Registering => Followable(s, x) && (s.dls[x.dl.value].tmpFile || Servable(s, x.key))
      case Waiting(_) => Followable(s, x) && (s.dls[x.dl.value].tmpFile || Servable(s, x.key))
      case Top => Followable(s, x)
      case Pread(avail) => Followable(s, x) && avail > 0
      case AtHead(_) => Followable(s, x)
      case Woken(_, _) => Followable(s, x)
      case _ => false
  }

  /** It has all there is for now: the whole body, or all that the download has published so far, at
      whose end it waits. */
  predicate Served(s: State, f: Id) {
    f in s.resps && (s.resps[f].at == Ended(None) || s.resps[f].at == AtHead(true))
  }

  function BlobLeft(s: State, ino: Id, off: nat): nat {
    if ino in s.bodies && off <= |s.bodies[ino].bytes| then |s.bodies[ino].bytes| - off else 0
  }

  function HitLeft(s: State, key: Key): nat {
    if key in s.blobs then BlobLeft(s, s.blobs[key], 0) else 0
  }

  function ReadLeft(s: State, x: Response): nat {
    if x.dl.Some? && x.dl.value in s.dls && x.off <= s.dls[x.dl.value].size then s.dls[x.dl.value].size - x.off else 0
  }

  /** How many steps it still needs at most. */
  function Needs(s: State, f: Id): nat
    requires f in s.resps
  {
    var x := s.resps[f];
    match x.at
    case Registering => 2 * ReadLeft(s, x) + HitLeft(s, x.key) + 10
    case Waiting(_) => 2 * ReadLeft(s, x) + HitLeft(s, x.key) + 9
    case Lookup => HitLeft(s, x.key) + 5
    case HaveMeta(_) => HitLeft(s, x.key) + 4
    case Opened(_, ino) => BlobLeft(s, ino, 0) + 3
    case Copying => (if x.src.Some? then BlobLeft(s, x.src.value, x.off) else 0) + 2
    case Woken(finished, _) => 2 * ReadLeft(s, x) + if finished then 1 else 5
    case Top => 2 * ReadLeft(s, x) + 4
    case Pread(_) => 2 * ReadLeft(s, x) + 3
    case AtHead(_) => 2 * ReadLeft(s, x) + if ReadLeft(s, x) > 0 then 6 else 2
    case _ => 0
  }

  predicate Onward(s: State, s': State, f: Id)
    requires f in s.resps
  {
    Served(s', f) || (Undisturbed(s', f) && Needs(s', f) < Needs(s, f))
  }

  /** Only the response itself has changed. */
  predicate OnlyItself(s: State, s': State, f: Id) {
    && f in s.resps && f in s'.resps && s' == s.(resps := s.resps[f := s'.resps[f]])
    && s'.resps[f].dl == s.resps[f].dl && s'.resps[f].key == s.resps[f].key
  }

  /** Of an undisturbed response every step that goes well brings it onward, and touches nothing else. */
  lemma StepsOnward(s: State, s': State, f: Id, a: ResponseStep)
    requires Sound(s, f) && Undisturbed(s, f) && !Served(s, f)
    requires ResponseNext(s, s', f, a) && OwnMove(a) && GoesWell(a)
    ensures Onward(s, s', f) && OnlyItself(s, s', f)
  {
    match a
    case ReadsMeta(_) => MetaOnward(s, s', f);
    case OpensBlob(_) => BlobOnward(s, s', f);
    case StatsBlob(_) => StatOnward(s, s', f);
    case Copies(n, _) => CopyOnward(s, s', f, n);
    case Registers => RegisterOnward(s, s', f);
    case Follows(_) => FollowOnward(s, s', f);
    case ReadsTop => TopOnward(s, s', f);
    case ReadsChunk(n, _) => ChunkOnward(s, s', f, n);
    case Catches => CatchOnward(s, s', f);
    case Concludes => ConcludeOnward(s, s', f);
    case ChecksDry =>
    case Joins =>
  }

  lemma MetaOnward(s: State, s': State, f: Id)
    requires Sound(s, f) && Undisturbed(s, f) && ReadMeta(s, s', f, true)
    ensures Onward(s, s', f) && OnlyItself(s, s', f)
  {
    assert s'.resps[f] == s.resps[f].(at := HaveMeta(s.metas[s.resps[f].key].meta));
  }

  lemma BlobOnward(s: State, s': State, f: Id)
    requires Sound(s, f) && Undisturbed(s, f) && OpenBlob(s, s', f, true)
    ensures Onward(s, s', f) && OnlyItself(s, s', f)
  {
    var x := s.resps[f];
    assert s'.resps[f] == x.(at := Opened(x.at.meta, s.blobs[x.key]));
  }

  lemma StatOnward(s: State, s': State, f: Id)
    requires Sound(s, f) && Undisturbed(s, f) && StatBlob(s, s', f, true)
    ensures Onward(s, s', f) && OnlyItself(s, s', f)
  {
    var x := s.resps[f];
    assert s'.resps[f] == x.(at := Copying, src := Some(x.at.ino), length := Some(x.at.meta.size));
  }

  lemma CopyOnward(s: State, s': State, f: Id, n: nat)
    requires Sound(s, f) && Undisturbed(s, f) && Copy(s, s', f, n, None)
    ensures Onward(s, s', f) && OnlyItself(s, s', f)
  {
  }

  lemma RegisterOnward(s: State, s': State, f: Id)
    requires Sound(s, f) && Undisturbed(s, f) && Register(s, s', f)
    ensures Onward(s, s', f) && OnlyItself(s, s', f)
  {
  }

  lemma FollowOnward(s: State, s': State, f: Id)
    requires Sound(s, f) && Undisturbed(s, f) && Follow(s, s', f, true)
    ensures Onward(s, s', f) && OnlyItself(s, s', f)
  {
    var x := s.resps[f];
    if s.dls[x.dl.value].tmpFile {
      assert s'.resps[f] == x.(at := Top, src := x.dl);
    } else {
      assert s'.resps[f] == x.(at := Lookup, late := true);
    }
  }

  lemma TopOnward(s: State, s': State, f: Id)
    requires Sound(s, f) && Undisturbed(s, f) && ReadTop(s, s', f)
    ensures Onward(s, s', f) && OnlyItself(s, s', f)
  {
  }

  lemma ChunkOnward(s: State, s': State, f: Id, n: nat)
    requires Sound(s, f) && Undisturbed(s, f) && ReadChunk(s, s', f, n, None) && n > 0
    ensures Onward(s, s', f) && OnlyItself(s, s', f)
  {
  }

  lemma CatchOnward(s: State, s': State, f: Id)
    requires Sound(s, f) && Undisturbed(s, f) && Catch(s, s', f)
    ensures Onward(s, s', f) && OnlyItself(s, s', f)
  {
  }

  lemma ConcludeOnward(s: State, s': State, f: Id)
    requires Sound(s, f) && Undisturbed(s, f) && Conclude(s, s', f)
    ensures Onward(s, s', f) && OnlyItself(s, s', f)
  {
  }

  // ------------------------------------------------------------------ there is always such a step

  lemma HasGoodStep(s: State, f: Id) returns (s': State, a: ResponseStep)
    requires Sound(s, f) && Undisturbed(s, f) && !Served(s, f)
    ensures ResponseNext(s, s', f, a) && OwnMove(a) && GoesWell(a)
  {
    var x := s.resps[f];
    if HitSpot(x.at) {
      s', a := HitGoodStep(s, f);
    } else {
      s', a := ReadGoodStep(s, f);
    }
  }

  lemma HitGoodStep(s: State, f: Id) returns (s': State, a: ResponseStep)
    requires Sound(s, f) && Undisturbed(s, f) && HitSpot(s.resps[f].at)
    ensures ResponseNext(s, s', f, a) && OwnMove(a) && GoesWell(a)
  {
    var x := s.resps[f];
    match x.at
    case Lookup =>
      s', a := PutResp(s, f, x.(at := HaveMeta(s.metas[x.key].meta))), ReadsMeta(true);
    case HaveMeta(meta) =>
      s', a := PutResp(s, f, x.(at := Opened(meta, s.blobs[x.key]))), OpensBlob(true);
    case Opened(meta, ino) =>
      s', a := PutResp(s, f, x.(at := Copying, src := Some(ino), length := Some(meta.size))), StatsBlob(true);
    case Copying =>
      var bytes := s.bodies[x.src.value].bytes;
      var n := if x.off < |bytes| then 1 else 0;
      var y := (if n == 0 then End(x, None) else x).(off := x.off + n, sent := x.sent + bytes[x.off..x.off + n]);
      s', a := PutResp(s, f, y), Copies(n, None);
  }

  lemma ReadGoodStep(s: State, f: Id) returns (s': State, a: ResponseStep)
    requires Sound(s, f) && Undisturbed(s, f) && !HitSpot(s.resps[f].at) && !Served(s, f)
    ensures ResponseNext(s, s', f, a) && OwnMove(a) && GoesWell(a)
  {
    var x := s.resps[f];
    var e := s.dls[x.dl.value];
    match x.at
    case Registering =>
      s', a := PutResp(s, f, x.(at := Waiting(false), callback := false)), Registers;
    case Waiting(_) =>
      s', a := PutResp(s, f, if e.tmpFile then x.(at := Top, src := x.dl) else x.(at := Lookup, late := true)),
               Follows(true);
    case Top =>
      s', a := PutResp(s, f, x.(at := if e.size > x.off then Pread(e.size - x.off) else AtHead(false))), ReadsTop;
    case Pread(_) =>
      var bytes := s.bodies[x.src.value].bytes;
      s', a := PutResp(s, f, x.(at := Top, off := x.off + 1, sent := x.sent + bytes[x.off..x.off + 1])),
               ReadsChunk(1, None);
    case AtHead(_) =>
      s', a := PutResp(s, f, x.(at := if e.size <= x.off && !e.done then AtHead(true)
                                      else Woken(e.done && e.size <= x.off, e.err))), Catches;
    case Woken(finished, derr) =>
      s', a := PutResp(s, f, if finished then End(x, derr) else x.(at := Top)), Concludes;
  }

  // ------------------------------------------------------------------ to the end

  ghost predicate GoodStep(s: State, s': State, f: Id, a: ResponseStep) {
    ResponseNext(s, s', f, a) && OwnMove(a) && GoesWell(a)
  }

  /** The response alone, by steps that go well. */
  ghost predicate Alone(path: seq<State>, steps: seq<ResponseStep>, f: Id) {
    |path| == |steps| + 1 && forall i :: 0 <= i < |steps| ==> GoodStep(path[i], path[i + 1], f, steps[i])
  }

  lemma OneFirst(s: State, f: Id, a: ResponseStep, path: seq<State>, steps: seq<ResponseStep>)
    requires Alone(path, steps, f) && GoodStep(s, path[0], f, a)
    ensures Alone([s] + path, [a] + steps, f)
  {
    var path', steps' := [s] + path, [a] + steps;
    forall i | 0 <= i < |steps'| ensures GoodStep(path'[i], path'[i + 1], f, steps'[i]) {
      if i > 0 {
        assert GoodStep(path[i - 1], path[i - 1 + 1], f, steps[i - 1]);
      }
    }
  }

  lemma OneMore(s: State, f: Id) returns (s': State, a: ResponseStep)
    requires Inv(s) && Undisturbed(s, f) && !Served(s, f)
    ensures GoodStep(s, s', f, a) && Inv(s') && Onward(s, s', f) && OnlyItself(s, s', f)
  {
    SoundInInv(s, f);
    s', a := HasGoodStep(s, f);
    StepsOnward(s, s', f, a);
    assert Next(s, s', OfResponse(f, a));
    NextKeeps(s, s', OfResponse(f, a));
  }

  lemma OnlyItselfTwice(s: State, s1: State, s2: State, f: Id)
    requires OnlyItself(s, s1, f) && OnlyItself(s1, s2, f)
    ensures OnlyItself(s, s2, f)
  {
    assert s.resps[f := s1.resps[f]][f := s2.resps[f]] == s.resps[f := s2.resps[f]];
  }

  lemma NoStep(s: State, f: Id)
    requires f in s.resps
    ensures Alone([s], [], f) && OnlyItself(s, s, f)
  {
    assert s.resps[f := s.resps[f]] == s.resps;
  }

  ghost predicate Reaches(s: State, f: Id, path: seq<State>, steps: seq<ResponseStep>, n: nat) {
    && Alone(path, steps, f) && path[0] == s && |steps| <= n
    && Inv(path[|steps|]) && Served(path[|steps|], f) && OnlyItself(s, path[|steps|], f)
  }

  lemma ReachesFirst(s: State, f: Id, a: ResponseStep, path: seq<State>, steps: seq<ResponseStep>, n: nat)
    requires |path| > 0 && Reaches(path[0], f, path, steps, n) && GoodStep(s, path[0], f, a)
        && OnlyItself(s, path[0], f)
    ensures Reaches(s, f, [s] + path, [a] + steps, n + 1)
  {
    OneFirst(s, f, a, path, steps);
    OnlyItselfTwice(s, path[0], path[|steps|], f);
    assert ([s] + path)[|steps| + 1] == path[|steps|];
  }

  lemma {:induction false} ReachesTheEnd(s: State, f: Id) returns (path: seq<State>, steps: seq<ResponseStep>)
    requires Inv(s) && (Undisturbed(s, f) || Served(s, f))
    ensures Reaches(s, f, path, steps, if Served(s, f) then 0 else Needs(s, f))
    decreases if Served(s, f) then 0 else Needs(s, f)
  {
    if Served(s, f) {
      NoStep(s, f);
      path, steps := [s], [];
    } else {
      SomeNeed(s, f);
      var next, a := OneMore(s, f);
      var rest, more := ReachesTheEnd(next, f);
      ReachesFirst(s, f, a, rest, more, if Served(next, f) then 0 else Needs(next, f));
      path, steps := [s] + rest, [a] + more;
    }
  }

  lemma SomeNeed(s: State, f: Id)
    requires Undisturbed(s, f) && !Served(s, f)
    ensures Needs(s, f) > 0
  {
  }

  /** What the response has been sent when it is served: the whole body of a download of its key; or, at the head of
      one in progress, all that this has published. */
  ghost predicate HasAll(s: State, f: Id)
    requires f in s.resps
  {
    var x := s.resps[f];
    if x.at == Ended(None) then SentWhole(s, x)
    else
      && Joined(s, f) && x.dl.value in s.bodies && !s.dls[x.dl.value].done
      && |x.sent| == s.dls[x.dl.value].size && x.sent <= s.bodies[x.dl.value].bytes
  }

  lemma ServedHasAll(s: State, f: Id)
    requires Inv(s) && Served(s, f)
    ensures HasAll(s, f)
  {
    assert RespOk(s, f);
    var x := s.resps[f];
    if x.at == Ended(None) {
      assert WholeBlob(s, x.key, x.src.value);
    } else {
      assert DlOk(s, x.dl.value);
    }
  }

  /** In every state of every run: a response that nothing disturbs reaches, by its own steps alone and
      in no more of them than it needs, a state in which it has all there is; if its download is done,
      or it never followed one, the whole. */
  lemma UndisturbedIsServed(run: seq<State>, i: nat, f: Id) returns (path: seq<State>, steps: seq<ResponseStep>)
    requires IsRun(run) && i < |run| && Undisturbed(run[i], f)
    ensures Alone(path, steps, f) && path[0] == run[i] && |steps| <= Needs(run[i], f)
    ensures var s' := path[|steps|];
      && OnlyItself(run[i], s', f) && Served(s', f) && HasAll(s', f)
      && (Joined(run[i], f) && run[i].dls[run[i].resps[f].dl.value].done ==> s'.resps[f].at == Ended(None))
  {
    RunKeeps(run, i);
    path, steps := ReachesTheEnd(run[i], f);
    ServedHasAll(path[|steps|], f);
  }

  // ------------------------------------------------------------------ the download

  /** The first steps of a download that stores what it sealed, as far as they leave things alone. */
  predicate Onto(s: State, s': State, d: Id, stage: Stage) {
    && d in s.dls && s'.dls == s.dls[d := s.dls[d].(stage := stage)] && s'.bodies == s.bodies
  }

  lemma Renames(s: State, d: Id) returns (s': State)
    requires At(s, d, Sealed) && d in s.tmps
    ensures DlRename(s, s', d)
    ensures Onto(s, s', d, Renamed) && s'.blobs == s.blobs[s.dls[d].key := d]
  {
    s' := Put(s, d, s.dls[d].(stage := Renamed)).(tmps := s.tmps - {d}, blobs := s.blobs[s.dls[d].key := d]);
  }

  lemma CreatesMeta(s: State, d: Id) returns (s': State)
    requires At(s, d, Renamed)
    ensures DlMetaCreate(s, s', d)
    ensures Onto(s, s', d, MetaCreated) && s'.blobs == s.blobs && d in s'.metaTmps
  {
    s' := Put(s, d, s.dls[d].(stage := MetaCreated)).(metaTmps := s.metaTmps[d := Partial]);
  }

  lemma WritesMeta(s: State, d: Id, status: nat) returns (s': State)
    requires At(s, d, MetaCreated) && d in s.metaTmps
    ensures DlMetaWrite(s, s', d, status)
    ensures Onto(s, s', d, MetaWritten) && s'.blobs == s.blobs
    ensures d in s'.metaTmps && s'.metaTmps[d] == Full(Meta(status, s.dls[d].size))
  {
    s' := Put(s, d, s.dls[d].(stage := MetaWritten))
            .(metaTmps := s.metaTmps[d := Full(Meta(status, s.dls[d].size))]);
  }

  lemma PutsMeta(s: State, d: Id) returns (s': State)
    requires At(s, d, MetaWritten) && d in s.metaTmps
    ensures DlMetaRename(s, s', d)
    ensures d in s'.dls && s'.dls[d] == s.dls[d].(stage := Unwinding, finalErr := None, tmpPath := false)
    ensures s'.bodies == s.bodies && s'.blobs == s.blobs && s'.metas == s.metas[s.dls[d].key := s.metaTmps[d]]
  {
    s' := Put(s, d, s.dls[d].(stage := Unwinding, finalErr := None, tmpPath := false))
            .(metas := s.metas[s.dls[d].key := s.metaTmps[d]], metaTmps := s.metaTmps - {d});
  }

  lemma Announces(s: State, d: Id) returns (s': State)
    requires At(s, d, Unwinding) && s.dls[d].err == None && s.dls[d].bodyComplete
    ensures DlAnnounce(s, s', d)
    ensures d in s'.dls && s'.dls[d].done && s'.dls[d].err == None
    ensures s'.bodies == s.bodies && s'.blobs == s.blobs && s'.metas == s.metas
  {
    s' := Put(s, d, s.dls[d].(stage := Announced, tmpFile := false, done := true)).(resps := Wake(s.resps, d));
  }

  /** Sealed, with all of the body promised. */
  predicate Whole(s: State, d: Id) {
    && At(s, d, Sealed) && d in s.bodies && s.bodies[d].complete
    && s.dls[d].size == |s.bodies[d].bytes| && s.dls[d].bodyComplete && s.dls[d].err == None
  }

  predicate StoredWell(s: State, d: Id, key: Key, status: nat) {
    && Servable(s, key) && s.blobs[key] == d && s.metas[key].meta.status == status
    && d in s.dls && s.dls[d].done && s.dls[d].err == None
  }

  lemma StoresIt(s: State, d: Id, status: nat) returns (path: seq<State>)
    requires Whole(s, d) && d in s.tmps && 100 <= status <= 999
    ensures |path| == 6 && path[0] == s
    ensures DlRename(path[0], path[1], d) && DlMetaCreate(path[1], path[2], d)
    ensures DlMetaWrite(path[2], path[3], d, status) && DlMetaRename(path[3], path[4], d)
    ensures DlAnnounce(path[4], path[5], d)
    ensures StoredWell(path[5], d, s.dls[d].key, status) && path[5].bodies == s.bodies
  {
    var s1 := Renames(s, d);
    var s2 := CreatesMeta(s1, d);
    var s3 := WritesMeta(s2, d, status);
    var s4 := PutsMeta(s3, d);
    var s5 := Announces(s4, d);
    path := [s, s1, s2, s3, s4, s5];
  }

  /** A download that is sealed, and whose temp file nobody has unlinked, stores what it sealed: by five steps of its
      own, after which the entry is done without an error and whoever looks the key up finds this body. */
  lemma StoresWhatItSealed(run: seq<State>, i: nat, d: Id, status: nat) returns (path: seq<State>)
    requires IsRun(run) && i < |run| && At(run[i], d, Sealed) && d in run[i].tmps && 100 <= status <= 999
    ensures |path| == 6 && path[0] == run[i]
    ensures DlRename(path[0], path[1], d) && DlMetaCreate(path[1], path[2], d)
    ensures DlMetaWrite(path[2], path[3], d, status) && DlMetaRename(path[3], path[4], d)
    ensures DlAnnounce(path[4], path[5], d)
    ensures d in run[i].bodies && run[i].bodies[d].complete && path[5].bodies == run[i].bodies
    ensures StoredWell(path[5], d, run[i].dls[d].key, status)
  {
    SealedIsWhole(run, i, d);
    path := StoresIt(run[i], d, status);
  }

  lemma SealedIsWhole(run: seq<State>, i: nat, d: Id)
    requires IsRun(run) && i < |run| && At(run[i], d, Sealed)
    ensures Whole(run[i], d)
  {
    RunKeeps(run, i);
    assert DlOk(run[i], d);
  }

  /** A download that has just been started comes to where followers can read it and nothing has been written yet. */
  lemma BeginsToFill(run: seq<State>, i: nat, d: Id) returns (path: seq<State>)
    requires IsRun(run) && i < |run| && At(run[i], d, Fetching)
    ensures |path| == 3 && path[0] == run[i]
    ensures DlCreate(path[0], path[1], d) && DlHeaders(path[1], path[2], d)
    ensures var s' := path[2];
      && At(s', d, Stage.Reading) && s'.dls[d].headersReady && s'.dls[d].tmpFile && s'.dls[d].err == None
      && s'.dls[d].size == 0 && d in s'.bodies && s'.bodies[d] == Body(run[i].dls[d].key, [], false)
  {
    RunKeeps(run, i);
    var s0 := run[i];
    assert DlOk(s0, d);
    var s1 := Put(s0, d, s0.dls[d].(stage := Created, tmpPath := true))
                .(bodies := s0.bodies[d := Body(s0.dls[d].key, [], false)], tmps := s0.tmps + {d});
    var s2 := Put(s1, d, s1.dls[d].(stage := Stage.Reading, tmpFile := true, headersReady := true))
                .(resps := Wake(s1.resps, d));
    path := [s0, s1, s2];
  }

  /** A response that is to join gets a download of its key to follow - the one in progress or a new one - unless all 32
      slots are taken and there is none. */
  lemma JoinsADownload(run: seq<State>, i: nat, f: Id, s': State)
    requires IsRun(run) && i < |run| && Join(run[i], s', f)
    requires (exists d :: d in run[i].dls && run[i].dls[d].key == run[i].resps[f].key && !run[i].dls[d].done)
             || |Running(run[i].dls)| < 32
    ensures var x := s'.resps[f];
      && x.at.Registering? && x.dl.Some? && x.dl.value in s'.dls
      && s'.dls[x.dl.value].key == run[i].resps[f].key && !s'.dls[x.dl.value].done
  {
    RunKeeps(run, i);
    var s, key := run[i], run[i].resps[f].key;
    if d :| d in s.dls && s.dls[d].key == key && !s.dls[d].done {
      assert DlOk(s, d);
    }
  }

  // ------------------------------------------------------------------ a request

  /** A request for a key that has no document, with a download of the key in progress or fewer than 32 of any, follows
      one of its key after three steps; a new one if there was none. */
  lemma FollowsWhatItAsksFor(run: seq<State>, i: nat, f: Id, key: Key) returns (path: seq<State>)
    requires IsRun(run) && i < |run| && f !in run[i].resps && key !in run[i].metas
    requires (exists d :: d in run[i].dls && run[i].dls[d].key == key && !run[i].dls[d].done)
             || |Running(run[i].dls)| < 32
    ensures |path| == 4 && path[0] == run[i]
    ensures Arrive(path[0], path[1], f, key) && ReadMeta(path[1], path[2], f, true) && Join(path[2], path[3], f)
    ensures f in path[3].resps
    ensures var s', x := path[3], path[3].resps[f];
      && x.at.Registering? && x.key == key && !x.cancelled && x.sent == []
      && x.dl.Some? && x.dl.value in s'.dls && s'.dls[x.dl.value].key == key && !s'.dls[x.dl.value].done
      && (x.dl.value in run[i].dls || (At(s', x.dl.value, Fetching) && |Running(run[i].dls)| < 32))
  {
    RunKeeps(run, i);
    LiveIsInFlight(run[i], key);
    var s1, s2 := AsksAndMisses(run[i], f, key);
    var s3 := JoinsOrStarts(s2, f, key);
    path := [run[i], s1, s2, s3];
  }

  /** A download of this key is in flight, and not done. */
  predicate InFlight(s: State, key: Key) {
    && key in s.inflight && s.inflight[key] in s.dls && !s.dls[s.inflight[key]].done
    && s.dls[s.inflight[key]].key == key
  }

  lemma LiveIsInFlight(s: State, key: Key)
    requires Inv(s)
    ensures (exists d :: d in s.dls && s.dls[d].key == key && !s.dls[d].done) ==> InFlight(s, key)
    ensures key in s.inflight && s.inflight[key] in s.dls ==> s.dls[s.inflight[key]].key == key
    ensures s.taken == |Running(s.dls)|
  {
    if d :| d in s.dls && s.dls[d].key == key && !s.dls[d].done {
      assert DlOk(s, d);
    }
  }

  lemma AsksAndMisses(s: State, f: Id, key: Key) returns (s1: State, s2: State)
    requires f !in s.resps && key !in s.metas
    ensures Arrive(s, s1, f, key) && ReadMeta(s1, s2, f, true)
    ensures s2 == PutResp(s, f, Response(key, Joining, false, None, false, false, None, 0, [], None))
  {
    s1 := PutResp(s, f, Response(key, Lookup, false, None, false, false, None, 0, [], None));
    s2 := PutResp(s1, f, s1.resps[f].(at := Joining));
  }

  lemma JoinsOrStarts(s: State, f: Id, key: Key) returns (s': State)
    requires Is(s, f, Joining) && s.resps[f].key == key && (InFlight(s, key) || s.taken < 32)
    requires key in s.inflight && s.inflight[key] in s.dls ==> s.dls[s.inflight[key]].key == key
    ensures Join(s, s', f) && f in s'.resps
    ensures var x := s'.resps[f];
      && x == s.resps[f].(at := Registering, dl := x.dl)
      && x.dl.Some? && x.dl.value in s'.dls && s'.dls[x.dl.value].key == key && !s'.dls[x.dl.value].done
      && (x.dl.value in s.dls || (At(s', x.dl.value, Fetching) && s.taken < 32))
  {
    if InFlight(s, key) {
      s' := PutResp(s, f, s.resps[f].(at := Registering, dl := Some(s.inflight[key])));
    } else {
      s' := PutResp(Put(s, s.next, NewDownload(key)), f, s.resps[f].(at := Registering, dl := Some(s.next)))
              .(inflight := s.inflight[key := s.next], taken := s.taken + 1, next := s.next + 1);
    }
  }

  /** These steps of one response, one after the other, and nothing in between. */
  ghost predicate Takes(path: seq<State>, steps: seq<ResponseStep>, f: Id) {
    |path| == |steps| + 1 && forall i :: 0 <= i < |steps| ==> ResponseNext(path[i], path[i + 1], f, steps[i])
  }

  /** And one for a key whose blob and document are there ends, by steps of its own, with just that body sent and its
      length announced. */
  lemma GetsWhatIsThere(run: seq<State>, i: nat, f: Id, key: Key) returns (path: seq<State>, steps: seq<ResponseStep>)
    requires IsRun(run) && i < |run| && f !in run[i].resps
    requires key in run[i].metas && run[i].metas[key].Full? && 100 <= run[i].metas[key].meta.status <= 999
    requires key in run[i].blobs && run[i].blobs[key] in run[i].bodies
    requires |run[i].bodies[run[i].blobs[key]].bytes| == run[i].metas[key].meta.size
    ensures Takes(path, steps, f) && path[0] == run[i] && steps != [] && steps[0] == Arrives(key)
    ensures var s', bytes := path[|steps|], run[i].bodies[run[i].blobs[key]].bytes;
      && f in s'.resps && s'.resps[f].at == Ended(None) && s'.resps[f].sent == bytes
      && s'.resps[f].length == Some(|bytes|)
  {
    var s, meta, ino := run[i], run[i].metas[key].meta, run[i].blobs[key];
    var s1 := PutResp(s, f, Response(key, Lookup, false, None, false, false, None, 0, [], None));
    var s2 := PutResp(s1, f, s1.resps[f].(at := HaveMeta(meta)));
    var s3 := PutResp(s2, f, s2.resps[f].(at := Opened(meta, ino)));
    var s4 := PutResp(s3, f, s3.resps[f].(at := Copying, src := Some(ino), length := Some(meta.size)));
    var rest, more := CopiesAll(s4, f, ino);
    path := [s, s1, s2, s3] + rest;
    steps := [Arrives(key), ReadsMeta(true), OpensBlob(true), StatsBlob(true)] + more;
    forall k | 0 <= k < |steps| ensures ResponseNext(path[k], path[k + 1], f, steps[k]) {
      if k >= 4 {
        assert path[k] == rest[k - 4] && path[k + 1] == rest[k - 3] && steps[k] == more[k - 4];
      }
    }
  }

  lemma CopiesAll(s: State, f: Id, ino: Id) returns (path: seq<State>, steps: seq<ResponseStep>)
    requires Is(s, f, Copying) && s.resps[f].src == Some(ino) && ino in s.bodies
    requires s.resps[f].off == 0 && s.resps[f].sent == []
    ensures Takes(path, steps, f) && path[0] == s
    ensures var s' := path[|steps|];
      f in s'.resps && s'.resps[f] == s.resps[f].(at := Ended(None), off := |s.bodies[ino].bytes|,
                                                  sent := s.bodies[ino].bytes)
  {
    var bytes := s.bodies[ino].bytes;
    if bytes == [] {
      var s1 := CopyEnds(s, f, ino);
      path, steps := [s, s1], [Copies(0, None)];
    } else {
      var s1 := CopiesTheRest(s, f, ino);
      var s2 := CopyEnds(s1, f, ino);
      path, steps := [s, s1, s2], [Copies(|bytes|, None), Copies(0, None)];
    }
  }

  lemma CopiesTheRest(s: State, f: Id, ino: Id) returns (s': State)
    requires Is(s, f, Copying) && s.resps[f].src == Some(ino) && ino in s.bodies
    requires s.resps[f].off == 0 && s.resps[f].sent == [] && s.bodies[ino].bytes != []
    ensures Copy(s, s', f, |s.bodies[ino].bytes|, None) && f in s'.resps && s'.bodies == s.bodies
    ensures s'.resps[f] == s.resps[f].(off := |s.bodies[ino].bytes|, sent := s.bodies[ino].bytes)
  {
    var bytes := s.bodies[ino].bytes;
    assert [] + bytes[0..0 + |bytes|] == bytes;
    s' := PutResp(s, f, s.resps[f].(off := |bytes|, sent := bytes));
  }

  lemma CopyEnds(s: State, f: Id, ino: Id) returns (s': State)
    requires Is(s, f, Copying) && s.resps[f].src == Some(ino) && ino in s.bodies
    requires s.resps[f].off == |s.bodies[ino].bytes|
    ensures Copy(s, s', f, 0, None) && f in s'.resps && s'.resps[f] == s.resps[f].(at := Ended(None))
  {
    var x, bytes := s.resps[f], s.bodies[ino].bytes;
    assert x.sent + bytes[|bytes|..|bytes| + 0] == x.sent;
    s' := PutResp(s, f, End(x, None));
  }

  /** Of a process that was killed nothing acts any more, and no slot stays taken: until a new request comes, or the
      evictor, what is on the disk stays as it was. */
  lemma {:induction false} NothingOutlivesAKill(run: seq<State>, labels: seq<Step>, i: nat, k: nat)
    requires Labelled(run, labels) && i < k < |run| && labels[i] == ProcessKilled
    requires forall h :: i < h < k ==> !labels[h].OfEvictor? && !(labels[h].OfResponse? && labels[h].resp.Arrives?)
    ensures run[k] == run[i].(dls := map[], resps := map[], inflight := map[], taken := 0)
    decreases k
  {
    assert Next(run[k - 1], run[k], labels[k - 1]);
    if k - 1 > i {
      NothingOutlivesAKill(run, labels, i, k - 1);
      IdleStays(run[k - 1], run[k], labels[k - 1]);
    }
  }

  lemma IdleStays(s: State, s': State, a: Step)
    requires s.dls == map[] && s.resps == map[] && s.inflight == map[] && s.taken == 0
    requires Next(s, s', a) && !a.OfEvictor? && !(a.OfResponse? && a.resp.Arrives?)
    ensures s' == s
  {
    match a
    case OfDownload(_, _) =>
    case OfResponse(_, _) =>
    case ProcessKilled =>
    case OfEvictor(_, _, _, _) =>
  }
}
