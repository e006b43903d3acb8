/** What a build of an image answers, and that it gets there. */
module ImageAnswers {
  import opened ImageCache
  import opened Options

  // ------------------------------------------------------------------ one step of one build

  predicate Says(stage: Stage, ok: bool) {
    stage == CleaningUp(ok) || stage == Releasing(ok) || stage == Finished(ok)
  }

  predicate HasImage(s: State, t: Target) {
    ImageOf(t) in s.images
  }

  /** Where one step may leave a build, given where it stood: it says yes only of an image that stands, and no only if
      it failed or its request went away. */
  predicate Moves(s: State, s': State, a: Step, j: Id)
    requires j in s.jobs && j in s'.jobs
  {
    var x, y := s.jobs[j].stage, s'.jobs[j].stage;
    && s'.jobs[j].target == s.jobs[j].target
    && (Says(y, true) ==> Says(x, true) || HasImage(s', s.jobs[j].target))
    && (Says(y, false) ==> Says(x, false) || a == Fails(j) || a == GivesUp(j))
  }

  predicate JobTold(s: State, s': State, a: Step, j: Id) {
    j in s'.jobs ==> if j in s.jobs then Moves(s, s', a, j) else s'.jobs[j].stage.Looking?
  }

  predicate JobStep(a: Step) {
    !a.Ensures? && !a.EntersByLink? && !a.EntersByLookup? && !a.Evicts? && !a.Killed?
  }

  lemma OwnJob(s: State, s': State, a: Step, j: Id)
    requires Next(s, s', a) && JobStep(a) && a.j == j && j in s.jobs
    ensures j in s'.jobs && Moves(s, s', a, j)
  {
  }

  lemma OtherJobs(s: State, s': State, a: Step, j: Id)
    requires Next(s, s', a) && JobStep(a) && a.j != j && j in s'.jobs
    ensures j in s.jobs && s'.jobs[j] == s.jobs[j]
  {
  }

  lemma Surroundings(s: State, s': State, a: Step, j: Id)
    requires Next(s, s', a) && !JobStep(a) && j in s'.jobs && s.next !in s.jobs
    ensures if j in s.jobs then s'.jobs[j] == s.jobs[j] else s'.jobs[j].stage.Looking?
  {
  }

  lemma StepTells(s: State, s': State, a: Step, j: Id)
    requires Inv(s) && Next(s, s', a)
    ensures JobTold(s, s', a, j)
  {
    if j in s'.jobs {
      if !JobStep(a) {
        assert s.next in s.jobs ==> JobFits(s, s.next);
        Surroundings(s, s', a, j);
      } else if a.j != j {
        OtherJobs(s, s', a, j);
      } else {
        assert j in s.jobs;
        OwnJob(s, s', a, j);
      }
    }
  }

  // ------------------------------------------------------------------ over a run

  /** A run with the step taken at each moment. */
  ghost predicate Labelled(run: seq<State>, labels: seq<Step>) {
    && |run| == |labels| + 1 && Init(run[0])
    && forall i :: 0 <= i < |labels| ==> Next(run[i], run[i + 1], labels[i])
  }

  ghost predicate ToldAt(run: seq<State>, labels: seq<Step>, i: nat, j: Id)
    requires i + 1 < |run| && |labels| + 1 == |run|
  {
    JobTold(run[i], run[i + 1], labels[i], j)
  }

  ghost predicate Told(run: seq<State>, labels: seq<Step>, j: Id) {
    |run| == |labels| + 1 && run[0].jobs == map[] && forall i :: 0 <= i < |labels| ==> ToldAt(run, labels, i, j)
  }

  lemma LabelledIsRun(run: seq<State>, labels: seq<Step>)
    requires Labelled(run, labels)
    ensures IsRun(run)
  {
    forall i | 0 <= i < |run| - 1 ensures StepAt(run, i) {
      assert Next(run[i], run[i + 1], labels[i]);
    }
  }

  lemma RunTells(run: seq<State>, labels: seq<Step>, j: Id)
    requires Labelled(run, labels)
    ensures Told(run, labels, j)
  {
    LabelledIsRun(run, labels);
    forall i | 0 <= i < |labels| ensures ToldAt(run, labels, i, j) {
      RunKeeps(run, i);
      assert Next(run[i], run[i + 1], labels[i]);
      StepTells(run[i], run[i + 1], labels[i], j);
    }
  }

  /** While this build was there, up to moment i, its image stood. */
  ghost predicate Stood(run: seq<State>, i: nat, j: Id)
    requires i < |run| && j in run[i].jobs
  {
    exists h :: 0 <= h <= i && j in run[h].jobs && HasImage(run[h], run[i].jobs[j].target)
  }

  lemma {:induction false} SaidTrue(run: seq<State>, labels: seq<Step>, i: nat, j: Id)
    requires Told(run, labels, j) && i < |run| && j in run[i].jobs && Says(run[i].jobs[j].stage, true)
    ensures Stood(run, i, j)
  {
    if i > 0 {
      assert ToldAt(run, labels, i - 1, j);
      if j in run[i - 1].jobs && Says(run[i - 1].jobs[j].stage, true) {
        SaidTrue(run, labels, i - 1, j);
        var h :| 0 <= h <= i - 1 && j in run[h].jobs && HasImage(run[h], run[i - 1].jobs[j].target);
      } else {
        assert HasImage(run[i], run[i].jobs[j].target);
      }
    }
  }

  lemma {:induction false} SaidFalse(run: seq<State>, labels: seq<Step>, i: nat, j: Id)
    requires Told(run, labels, j) && i < |run| && j in run[i].jobs && Says(run[i].jobs[j].stage, false)
    ensures exists h :: 0 <= h < i && (labels[h] == Fails(j) || labels[h] == GivesUp(j))
  {
    if i > 0 {
      assert ToldAt(run, labels, i - 1, j);
      if j in run[i - 1].jobs && Says(run[i - 1].jobs[j].stage, false) {
        SaidFalse(run, labels, i - 1, j);
      }
    }
  }

  /** A build that answers well had its image: it stood at some moment while the build was there. One that answers
      otherwise has failed, or its request went away. */
  lemma AnswersAreTrue(run: seq<State>, labels: seq<Step>, i: nat, j: Id)
    requires Labelled(run, labels) && i < |run| && j in run[i].jobs
    ensures run[i].jobs[j].stage == Finished(true) ==> Stood(run, i, j)
    ensures run[i].jobs[j].stage == Finished(false) ==>
              exists h :: 0 <= h < i && (labels[h] == Fails(j) || labels[h] == GivesUp(j))
  {
    RunTells(run, labels, j);
    if run[i].jobs[j].stage == Finished(true) {
      SaidTrue(run, labels, i, j);
    } else if run[i].jobs[j].stage == Finished(false) {
      SaidFalse(run, labels, i, j);
    }
  }

  // ------------------------------------------------------------------ undisturbed

  /** These steps, one after the other, and nothing in between. */
  ghost predicate Takes(path: seq<State>, steps: seq<Step>) {
    |path| == |steps| + 1 && forall i :: 0 <= i < |steps| ==> Next(path[i], path[i + 1], steps[i])
  }

  /** What the build can fetch: its store path; or its archive, if it knows all of the path or asks for it. */
  ghost predicate Fetchable(s: State, t: Target) {
    t.ForBuild? ==> t.id in s.meta && (t.path.Some? ==> t.path.value == s.meta[t.id].path)
  }

  function SourceFor(s: State, t: Target): Source
    requires t.ForBuild? ==> t.id in s.meta
  {
    match t
    case ForPath(hash, package) => StorePath(hash, package)
    case ForBuild(b, _, _) => Archive(s.meta[b].path)
  }

  lemma GetsASlot(s: State, j: Id) returns (path: seq<State>)
    requires At(s, j, Looking) && !HasImage(s, s.jobs[j].target) && s.slots < s.limit
    ensures |path| == 4 && Takes(path, [Looks(j), Acquires(j), Rechecks(j)]) && path[0] == s
    ensures path[3] == Move(s, j, Building).(slots := s.slots + 1)
  {
    var s1 := Move(s, j, Queueing);
    var s2 := Move(s1, j, Rechecking).(slots := s1.slots + 1);
    var s3 := Move(s2, j, Building);
    path := [s, s1, s2, s3];
  }

  lemma Builds(s: State, j: Id) returns (path: seq<State>, steps: seq<Step>)
    requires At(s, j, Building) && Fetchable(s, s.jobs[j].target)
    ensures Takes(path, steps) && path[0] == s
    ensures var s' := path[|steps|];
      && At(s', j, Renaming) && j in s'.tmps && s'.tmps[j] == Built(SourceFor(s, s.jobs[j].target))
      && s'.jobs[j].target == s.jobs[j].target && s'.slots == s.slots && s'.images == s.images
  {
    var t := s.jobs[j].target;
    var source := SourceFor(s, t);
    assert Exists(s.meta, source);
    if t.ForBuild? {
      var s1 := Move(s, j, Naming).(tmps := s.tmps[j := Built(source)]);
      var s2 := Move(s1, j, Writing).(recorded := s1.recorded[t.key := ""]);
      var s3 := Move(s2, j, Renaming).(recorded := s2.recorded[t.key := source.path]);
      path, steps := [s, s1, s2, s3], [Succeeds(j, source), Truncates(j), Names(j, source)];
    } else {
      var s1 := Move(s, j, Renaming).(tmps := s.tmps[j := Built(source)]);
      path, steps := [s, s1], [Succeeds(j, source)];
    }
  }

  lemma PutsInPlace(s: State, j: Id) returns (path: seq<State>)
    requires At(s, j, Renaming) && j in s.tmps && s.slots > 0
    ensures |path| == 4 && Takes(path, [Renames(j), Cleans(j), Releases(j)]) && path[0] == s
    ensures var s', image := path[3], ImageOf(s.jobs[j].target);
      && image in s'.images && s'.images[image] == s.tmps[j] && At(s', j, Finished(true)) && s'.slots == s.slots - 1
  {
    var s1 := Move(s, j, CleaningUp(true)).(images := s.images[ImageOf(s.jobs[j].target) := s.tmps[j]],
                tmps := s.tmps - {j});
    var s2 := Move(s1, j, Releasing(true)).(tmps := s1.tmps - {j});
    var s3 := Move(s2, j, Finished(true)).(slots := s2.slots - 1);
    path := [s, s1, s2, s3];
  }

  lemma TakesMore(path: seq<State>, steps: seq<Step>, more: seq<State>, thus: seq<Step>)
    requires Takes(path, steps) && Takes(more, thus) && path[|steps|] == more[0]
    ensures Takes(path + more[1..], steps + thus) && (path + more[1..])[|steps + thus|] == more[|thus|]
  {
    var whole, all := path + more[1..], steps + thus;
    forall i | 0 <= i < |all| ensures Next(whole[i], whole[i + 1], all[i]) {
      if i < |steps| {
        assert Next(path[i], path[i + 1], steps[i]);
      } else {
        var k := i - |steps|;
        assert Next(more[k], more[k + 1], thus[k]);
        assert whole[i] == more[k] && whole[i + 1] == more[k + 1];
      }
    }
  }

  /** A build that has just begun, of something that can be fetched, with a slot free, gets by its own steps to where
      its image stands, made of what was asked for, and answers well. */
  lemma BuildsIt(s: State, j: Id) returns (path: seq<State>, steps: seq<Step>)
    requires At(s, j, Looking) && Fetchable(s, s.jobs[j].target)
    requires !HasImage(s, s.jobs[j].target) && s.slots < s.limit
    ensures Takes(path, steps) && path[0] == s
    ensures var s', t := path[|steps|], s.jobs[j].target;
      && ImageOf(t) in s'.images && s'.images[ImageOf(t)] == Built(SourceFor(s, t))
      && At(s', j, Finished(true)) && s'.slots == s.slots
  {
    var first := GetsASlot(s, j);
    var begin := [Looks(j), Acquires(j), Rechecks(j)];
    var second, build := Builds(first[3], j);
    var third := PutsInPlace(second[|build|], j);
    TakesMore(first, begin, second, build);
    path, steps := first + second[1..], begin + build;
    TakesMore(path, steps, third, [Renames(j), Cleans(j), Releases(j)]);
    path, steps := path + third[1..], steps + [Renames(j), Cleans(j), Releases(j)];
  }

  /** In every state of every run: a request for a store path whose image is not there, that nobody is building yet and
      with a slot free, gets by steps of its own to where the image stands, made of this store path. */
  lemma BuildsWhatIsAsked(run: seq<State>, i: nat, hash: string, package: string)
    returns (path: seq<State>, steps: seq<Step>)
    requires IsRun(run) && i < |run| && OfHash(hash) !in run[i].images && run[i].slots < run[i].limit
    requires forall j :: j in run[i].jobs && run[i].jobs[j].target == ForPath(hash, package) ==>
        run[i].jobs[j].stage.Finished?
    ensures Takes(path, steps) && path[0] == run[i] && steps != [] && steps[0] == Ensures(hash, package)
    ensures var s', j := path[|steps|], run[i].next;
      && OfHash(hash) in s'.images && s'.images[OfHash(hash)] == Built(StorePath(hash, package))
      && At(s', j, Finished(true)) && s'.slots == run[i].slots
  {
    var s, j, t := run[i], run[i].next, ForPath(hash, package);
    var asked := s.(jobs := s.jobs[j := Job(t, Looking)], next := j + 1);
    assert Next(s, asked, Ensures(hash, package));
    var rest, work := BuildsIt(asked, j);
    TakesMore([s, asked], [Ensures(hash, package)], rest, work);
    path, steps := [s, asked] + rest[1..], [Ensures(hash, package)] + work;
  }

  predicate OfKey(t: Target, key: string) {
    t.ForBuild? && t.key == key
  }

  /** And so does one for a build ID that the binary cache knows, with the archive that it names. */
  lemma BuildsTheArchive(run: seq<State>, i: nat, b: BuildId) returns (path: seq<State>, steps: seq<Step>)
    requires IsRun(run) && i < |run| && b in run[i].meta && run[i].slots < run[i].limit
    requires OfArchive(run[i].meta[b].key) !in run[i].images
    requires forall j :: j in run[i].jobs && OfKey(run[i].jobs[j].target, run[i].meta[b].key) ==>
        run[i].jobs[j].stage.Finished?
    ensures Takes(path, steps) && path[0] == run[i] && steps != [] && steps[0] == EntersByLookup(b, true)
    ensures var s', nar := path[|steps|], run[i].meta[b];
      && OfArchive(nar.key) in s'.images && s'.images[OfArchive(nar.key)] == Built(Archive(nar.path))
      && At(s', run[i].next, Finished(true)) && s'.slots == run[i].slots
  {
    var s, j, nar := run[i], run[i].next, run[i].meta[b];
    var t := ForBuild(b, nar.key, Some(nar.path));
    var asked := s.(jobs := s.jobs[j := Job(t, Looking)], next := j + 1, links := s.links[b := nar.key]);
    assert Next(s, asked, EntersByLookup(b, true));
    var rest, work := BuildsIt(asked, j);
    TakesMore([s, asked], [EntersByLookup(b, true)], rest, work);
    path, steps := [s, asked] + rest[1..], [EntersByLookup(b, true)] + work;
  }

  /** One that has the key from the link of its build ID, with all of the archive's path on record beside it, or
      nothing: then it asks. */
  lemma BuildsByTheLink(run: seq<State>, i: nat, b: BuildId) returns (path: seq<State>, steps: seq<Step>)
    requires IsRun(run) && i < |run| && b in run[i].meta && run[i].slots < run[i].limit
    requires b in run[i].links && run[i].links[b] == run[i].meta[b].key
    requires var key := run[i].meta[b].key; key in run[i].recorded ==>
        run[i].recorded[key] == "" || run[i].recorded[key] == run[i].meta[b].path
    requires OfArchive(run[i].meta[b].key) !in run[i].images
    requires forall j :: j in run[i].jobs && OfKey(run[i].jobs[j].target, run[i].meta[b].key) ==>
        run[i].jobs[j].stage.Finished?
    ensures Takes(path, steps) && path[0] == run[i] && steps != [] && steps[0] == EntersByLink(b)
    ensures var s', nar := path[|steps|], run[i].meta[b];
      && OfArchive(nar.key) in s'.images && s'.images[OfArchive(nar.key)] == Built(Archive(nar.path))
      && At(s', run[i].next, Finished(true)) && s'.slots == run[i].slots
  {
    var s, j, nar := run[i], run[i].next, run[i].meta[b];
    var t := ForBuild(b, nar.key, OnRecord(s, nar.key));
    var asked := s.(jobs := s.jobs[j := Job(t, Looking)], next := j + 1);
    assert Next(s, asked, EntersByLink(b));
    var rest, work := BuildsIt(asked, j);
    TakesMore([s, asked], [EntersByLink(b)], rest, work);
    path, steps := [s, asked] + rest[1..], [EntersByLink(b)] + work;
  }

  /** And one whose image stands answers well at once, and nothing is built. */
  lemma HitsAtOnce(s: State, s': State, j: Id)
    requires At(s, j, Looking) && HasImage(s, s.jobs[j].target) && Next(s, s', Looks(j))
    ensures At(s', j, Finished(true)) && s' == s.(jobs := s'.jobs)
  {
  }

  // ------------------------------------------------------------------ after a kill

  predicate Starts(a: Step) {
    a.Ensures? || a.EntersByLink? || a.EntersByLookup? || a.Evicts?
  }

  /** Of a process that was killed nothing acts any more, and no slot stays taken: until a new request comes, or the
      evictor, not a file changes. */
  lemma {:induction false} NothingOutlivesAKill(run: seq<State>, labels: seq<Step>, i: nat, k: nat)
    requires Labelled(run, labels) && i < k < |run| && labels[i] == Killed
    requires forall h :: i < h < k ==> !Starts(labels[h])
    ensures run[k].images == run[i].images && run[k].recorded == run[i].recorded && run[k].links == run[i].links
    ensures run[k].tmps == run[i].tmps && run[k].jobs == map[] && run[k].slots == 0
    decreases k
  {
    assert Next(run[k - 1], run[k], labels[k - 1]);
    if k - 1 > i {
      NothingOutlivesAKill(run, labels, i, k - 1);
    }
  }

  // ------------------------------------------------------------------ what is left behind

  predicate MayHaveTmp(stage: Stage) {
    stage.Building? || stage.Naming? || stage.Writing? || stage.Renaming? || stage.CleaningUp?
  }

  ghost predicate Tidy(s: State) {
    && (forall j :: j in s.tmps ==> j < s.next && (j in s.jobs ==> MayHaveTmp(s.jobs[j].stage)))
    && forall j :: j in s.jobs ==> j < s.next
  }

  lemma OwnTmp(s: State, s': State, a: Step)
    requires Tidy(s) && Next(s, s', a) && JobStep(a)
    ensures a.j in s.jobs && s'.jobs.Keys == s.jobs.Keys && s'.next == s.next && s'.tmps.Keys <= s.tmps.Keys + {a.j}
    ensures a.j in s'.tmps ==> MayHaveTmp(s'.jobs[a.j].stage)
  {
  }

  lemma TidyStays(s: State, s': State, a: Step)
    requires Tidy(s) && Next(s, s', a)
    ensures Tidy(s')
  {
    if JobStep(a) {
      OwnTmp(s, s', a);
      forall j | j in s'.tmps && j != a.j && j in s'.jobs ensures MayHaveTmp(s'.jobs[j].stage) {
        OtherJobs(s, s', a, j);
      }
    } else {
      OthersTidy(s, s', a);
    }
  }

  lemma OthersTidy(s: State, s': State, a: Step)
    requires Tidy(s) && Next(s, s', a) && !JobStep(a)
    ensures Tidy(s')
  {
  }

  /** In every state of every run: a build that is over has left no temp file. */
  lemma {:induction false} NothingIsLeftBehind(run: seq<State>, i: nat)
    requires IsRun(run) && i < |run|
    ensures Tidy(run[i])
    ensures forall j :: j in run[i].jobs && run[i].jobs[j].stage.Finished? ==> j !in run[i].tmps
  {
    if i == 0 {
    } else {
      NothingIsLeftBehind(run, i - 1);
      assert StepAt(run, i - 1);
      var a :| Next(run[i - 1], run[i - 1 + 1], a);
      TidyStays(run[i - 1], run[i], a);
    }
  }
}
