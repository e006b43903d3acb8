/** What an unpack answers, and that it gets there: a reply that says so had the tree, one that says otherwise has its
    cause, and an unpack or a delete that nothing disturbs does what it was asked. */
module UnpackAnswers {
  import opened Options
  import opened Unpack

  // ------------------------------------------------------------------ one step of one unpack

  predicate Says(stage: Phase, ok: bool) {
    stage == Cleaning(ok) || stage == Replied(ok)
  }

  /** The rename does not happen: it is refused, its source is gone, or something stands under the final name. */
  predicate Hindered(s: State, a: Step, j: Id) {
    && j in s.jobs && a.Places? && a.j == j
    && (a.refused || !Here(s, j) || !Free(s, Final(s.jobs[j].package)))
  }

  /** Its rename was hindered, and the package is not there. */
  predicate LostOut(s: State, j: Id) {
    j in s.jobs && s.jobs[j].stage.Beaten? && !Complete(s, Final(s.jobs[j].package))
  }

  /** Where one step may leave an unpack, given where it stood. */
  predicate Moves(s: State, s': State, a: Step, j: Id)
    requires j in s.jobs && j in s'.jobs
  {
    var x, y := s.jobs[j].stage, s'.jobs[j].stage;
    && s'.jobs[j].package == s.jobs[j].package
    && (Says(y, true) ==> Says(x, true) || Complete(s', Final(s.jobs[j].package)))
    && (Says(y, false) ==> Says(x, false) || a == Fails(j) || LostOut(s, j))
    && (y.Beaten? ==> x.Beaten? || Hindered(s, a, j))
  }

  ghost predicate JobTold(s: State, s': State, a: Step, j: Id) {
    j in s'.jobs ==> if j in s.jobs then Moves(s, s', a, j) else s'.jobs[j].stage.Checking?
  }

  lemma OwnJob(s: State, s': State, a: Step, j: Id)
    requires Inv(s) && Next(s, s', a) && JobStep(a) && a.j == j && j in s.jobs && j in s'.jobs
    ensures Moves(s, s', a, j)
  {
    assert JobFits(s, j);
    match a
    case Checks(_) => CheckMoves(s, s', j);
    case Places(_, refused) => PlaceMoves(s, s', j, refused);
    case LooksAgain(_) => LookMoves(s, s', j);
    case _ => WorkMoves(s, s', a, j);
  }

  lemma CheckMoves(s: State, s': State, j: Id)
    requires Check(s, s', j)
    ensures j in s'.jobs && Moves(s, s', Checks(j), j)
  {
  }

  lemma LookMoves(s: State, s': State, j: Id)
    requires LookAgain(s, s', j)
    ensures j in s'.jobs && Moves(s, s', LooksAgain(j), j)
  {
  }

  lemma WorkMoves(s: State, s': State, a: Step, j: Id)
    requires j in s.jobs && j in s'.jobs && Next(s, s', a) && JobStep(a) && a.j == j
    requires !a.Checks? && !a.Places? && !a.LooksAgain?
    ensures Moves(s, s', a, j)
  {
  }

  lemma PlaceMoves(s: State, s': State, j: Id, refused: bool)
    requires j in s.jobs && JobFits(s, j) && Place(s, s', j, refused)
    ensures j in s'.jobs && Moves(s, s', Places(j, refused), j)
  {
    var final := Final(s.jobs[j].package);
    if !refused && Here(s, j) && Free(s, final) {
      assert s'.names[final] == s.names[Staged(j)] && s'.dirs == s.dirs;
    }
  }

  predicate JobStep(a: Step) {
    a.Checks? || a.Stages? || a.Extracts? || a.ExtractDone? || a.Marks? || a.Places? || a.LooksAgain? || a.Fails?
      || a.Cleans?
  }

  lemma OtherJobs(s: State, s': State, a: Step, j: Id)
    requires Next(s, s', a) && (JobStep(a) ==> a.j != j) && j in s'.jobs
    ensures if j in s.jobs then s'.jobs[j] == s.jobs[j] || (a.Begins? && j == s.next) else s'.jobs[j].stage.Checking?
  {
  }

  lemma StepTells(s: State, s': State, a: Step, j: Id)
    requires Inv(s) && Next(s, s', a)
    ensures JobTold(s, s', a, j)
  {
    if j in s'.jobs {
      if JobStep(a) && a.j == j {
        OwnJob(s, s', a, j);
      } else {
        OtherJobs(s, s', a, j);
        if j in s.jobs {
          assert JobFits(s, j);
        }
      }
    }
  }

  // ------------------------------------------------------------------ over a run

  /** A run with the step taken at each moment. */
  ghost predicate Labelled(run: seq<State>, labels: seq<Step>) {
    && |run| == |labels| + 1 && Init(run[0])
    && forall i :: 0 <= i < |labels| ==> Next(run[i], run[i + 1], labels[i])
  }

  ghost predicate ToldAt(run: seq<State>, labels: seq<Step>, i: nat, j: Id)
    requires i + 1 < |run| && |labels| + 1 == |run|
  {
    JobTold(run[i], run[i + 1], labels[i], j)
  }

  ghost predicate Told(run: seq<State>, labels: seq<Step>, j: Id) {
    |run| == |labels| + 1 && run[0].jobs == map[] && forall i :: 0 <= i < |labels| ==> ToldAt(run, labels, i, j)
  }

  lemma LabelledIsRun(run: seq<State>, labels: seq<Step>)
    requires Labelled(run, labels)
    ensures IsRun(run)
  {
    forall i | 0 <= i < |run| - 1 ensures StepAt(run, i) {
      assert Next(run[i], run[i + 1], labels[i]);
    }
  }

  lemma RunTells(run: seq<State>, labels: seq<Step>, j: Id)
    requires Labelled(run, labels)
    ensures Told(run, labels, j)
  {
    LabelledIsRun(run, labels);
    forall i | 0 <= i < |labels| ensures ToldAt(run, labels, i, j) {
      RunKeeps(run, i);
      assert Next(run[i], run[i + 1], labels[i]);
      StepTells(run[i], run[i + 1], labels[i], j);
    }
  }

  /** A tree with its marker stands under the package's final name. */
  predicate IsThere(s: State, p: Package) {
    exists tree :: Final(p) in s.names && s.names[Final(p)] == tree && tree in s.dirs && s.dirs[tree].marker
  }

  lemma CompleteIsThere(s: State, p: Package)
    ensures Complete(s, Final(p)) <==> IsThere(s, p)
  {
    if Complete(s, Final(p)) {
      var tree := s.names[Final(p)];
      assert s.dirs[tree].marker;
    }
  }

  /** While this unpack was there, up to moment i, its package's tree stood complete under the final name. */
  ghost predicate StoodComplete(run: seq<State>, i: nat, j: Id)
    requires i < |run| && j in run[i].jobs
  {
    exists h :: 0 <= h <= i && j in run[h].jobs && IsThere(run[h], run[i].jobs[j].package)
  }

  lemma {:induction false} SaidTrue(run: seq<State>, labels: seq<Step>, i: nat, j: Id)
    requires Told(run, labels, j) && i < |run| && j in run[i].jobs && Says(run[i].jobs[j].stage, true)
    ensures StoodComplete(run, i, j)
  {
    if i > 0 {
      assert ToldAt(run, labels, i - 1, j);
      if j in run[i - 1].jobs && Says(run[i - 1].jobs[j].stage, true) {
        SaidTrue(run, labels, i - 1, j);
        var h :| 0 <= h <= i - 1 && j in run[h].jobs && IsThere(run[h], run[i - 1].jobs[j].package);
      } else {
        CompleteIsThere(run[i], run[i].jobs[j].package);
      }
    }
  }

  lemma {:induction false} WasBeaten(run: seq<State>, labels: seq<Step>, i: nat, j: Id)
    requires Told(run, labels, j) && i < |run| && j in run[i].jobs && run[i].jobs[j].stage.Beaten?
    ensures exists h :: 0 <= h < i && Hindered(run[h], labels[h], j)
  {
    if i > 0 {
      assert ToldAt(run, labels, i - 1, j);
      if !Hindered(run[i - 1], labels[i - 1], j) {
        WasBeaten(run, labels, i - 1, j);
      }
    }
  }

  /** Why an unpack says that it did not succeed: it failed at some step; or its rename was hindered and, looking again,
      it did not find the tree. */
  ghost predicate Excused(run: seq<State>, labels: seq<Step>, i: nat, j: Id)
    requires i < |run| && |labels| + 1 == |run|
  {
    || (exists h :: 0 <= h < i && labels[h] == Fails(j))
    || (exists h, k :: 0 <= h < k < i && Hindered(run[h], labels[h], j) && LostOut(run[k], j))
  }

  lemma {:induction false} SaidFalse(run: seq<State>, labels: seq<Step>, i: nat, j: Id)
    requires Told(run, labels, j) && i < |run| && j in run[i].jobs && Says(run[i].jobs[j].stage, false)
    ensures Excused(run, labels, i, j)
  {
    if i > 0 {
      assert ToldAt(run, labels, i - 1, j);
      if j in run[i - 1].jobs && Says(run[i - 1].jobs[j].stage, false) {
        SaidFalse(run, labels, i - 1, j);
      } else if labels[i - 1] != Fails(j) {
        WasBeaten(run, labels, i - 1, j);
        var h :| 0 <= h < i - 1 && Hindered(run[h], labels[h], j);
        assert LostOut(run[i - 1], j);
      }
    }
  }

  /** An unpack that replies well had the tree: it stood complete under its final name while the unpack ran. One that
      replies otherwise has failed at a step of its own, or its rename was hindered and it looked again in vain. */
  lemma RepliesAreTrue(run: seq<State>, labels: seq<Step>, i: nat, j: Id)
    requires Labelled(run, labels) && i < |run| && j in run[i].jobs
    ensures run[i].jobs[j].stage == Replied(true) ==> StoodComplete(run, i, j)
    ensures run[i].jobs[j].stage == Replied(false) ==> Excused(run, labels, i, j)
  {
    RunTells(run, labels, j);
    if run[i].jobs[j].stage == Replied(true) {
      SaidTrue(run, labels, i, j);
    } else if run[i].jobs[j].stage == Replied(false) {
      SaidFalse(run, labels, i, j);
    }
  }

  // ------------------------------------------------------------------ undisturbed

  /** These steps, one after the other, and nothing in between. */
  ghost predicate Takes(path: seq<State>, steps: seq<Step>) {
    |path| == |steps| + 1 && forall i :: 0 <= i < |steps| ==> Next(path[i], path[i + 1], steps[i])
  }

  lemma TakesMore(path: seq<State>, steps: seq<Step>, more: seq<State>, thus: seq<Step>)
    requires Takes(path, steps) && Takes(more, thus) && path[|steps|] == more[0]
    ensures Takes(path + more[1..], steps + thus) && (path + more[1..])[|steps + thus|] == more[|thus|]
  {
    var whole, all := path + more[1..], steps + thus;
    forall i | 0 <= i < |all| ensures Next(whole[i], whole[i + 1], all[i]) {
      if i < |steps| {
        assert Next(path[i], path[i + 1], steps[i]);
      } else {
        var k := i - |steps|;
        assert Next(more[k], more[k + 1], thus[k]);
        assert whole[i] == more[k] && whole[i + 1] == more[k + 1];
      }
    }
  }

  /** At work on package p, with these of its files extracted; nothing of it has been placed yet. */
  predicate HasExtracted(s: State, j: Id, p: Package, have: set<FileName>) {
    && In(s, j, Extracting) && s.jobs[j].package == p && Here(s, j) && have <= s.pool[p]
    && s.dirs[s.names[Staged(j)]] == Dir(have, false) && Free(s, Final(p))
    && (Final(p) in s.names ==> s.names[Final(p)] != s.names[Staged(j)])
  }

  lemma BeginsExtracting(s: State, j: Id, p: Package) returns (path: seq<State>, steps: seq<Step>)
    requires Inv(s) && In(s, j, Checking) && s.jobs[j].package == p && !Complete(s, Final(p)) && Free(s, Final(p))
    ensures Takes(path, steps) && path[0] == s && HasExtracted(path[|steps|], j, p, {})
    ensures path[|steps|].pool == s.pool
  {
    var s1 := Advance(s, j, Staging);
    var s2 := Advance(s1, j, Extracting).(dirs := s1.dirs[s1.next := Dir({}, false)],
                names := s1.names[Staged(j) := s1.next], next := s1.next + 1);
    path, steps := [s, s1, s2], [Checks(j), Stages(j)];
    assert Final(p) in s.names ==> NameFits(s, Final(p));
  }

  lemma ExtractsOne(s: State, j: Id, p: Package, have: set<FileName>, f: FileName) returns (s': State)
    requires HasExtracted(s, j, p, have) && f in s.pool[p]
    ensures Next(s, s', Extracts(j, f)) && HasExtracted(s', j, p, have + {f}) && s'.pool == s.pool
  {
    var i := s.names[Staged(j)];
    s' := s.(dirs := s.dirs[i := s.dirs[i].(files := s.dirs[i].files + {f})]);
  }

  lemma {:induction false} ExtractsAll(s: State, j: Id, p: Package, have: set<FileName>)
    returns (path: seq<State>, steps: seq<Step>)
    requires HasExtracted(s, j, p, have)
    ensures Takes(path, steps) && path[0] == s && HasExtracted(path[|steps|], j, p, s.pool[p])
    ensures path[|steps|].pool == s.pool
    decreases s.pool[p] - have
  {
    if s.pool[p] == have {
      path, steps := [s], [];
    } else {
      var f :| f in s.pool[p] && f !in have;
      var next := ExtractsOne(s, j, p, have, f);
      var rest, more := ExtractsAll(next, j, p, have + {f});
      TakesMore([s, next], [Extracts(j, f)], rest, more);
      path, steps := [s, next] + rest[1..], [Extracts(j, f)] + more;
    }
  }

  lemma Finishes(s: State, j: Id, p: Package) returns (path: seq<State>, steps: seq<Step>)
    requires p in s.pool && HasExtracted(s, j, p, s.pool[p])
    ensures Takes(path, steps) && path[0] == s
    ensures var s' := path[|steps|];
      Whole(s', p) && s'.names[Final(p)] in s'.placed && j in s'.jobs && s'.jobs[j] == Job(p, Replied(true))
  {
    var i := s.names[Staged(j)];
    var s1 := Advance(s, j, Extracted);
    var s2 := Advance(s1, j, Marked).(dirs := s1.dirs[i := s1.dirs[i].(marker := true)]);
    var s3 := Advance(s2, j, Cleaning(true)).(names := (s2.names - {Staged(j)})[Final(p) := i], placed := s2.placed
      + {i});
    var s4 := Advance(s3, j, Replied(true)).(removals := s3.removals[s3.next := Removal(Staged(j), None)],
                next := s3.next + 1);
    path, steps := [s, s1, s2, s3, s4], [ExtractDone(j), Marks(j), Places(j, false), Cleans(j)];
  }

  /** In every state of every run: an unpack that now begins, of a package that is not there and with nothing in the way
      of its final name, gets by its own steps to where the whole tree stands under that name and the reply says so. */
  lemma UnpacksWhatIsAsked(run: seq<State>, i: nat, p: Package) returns (path: seq<State>, steps: seq<Step>)
    requires IsRun(run) && i < |run| && p in run[i].pool
    requires Final(p) in run[i].names ==>
        run[i].names[Final(p)] in run[i].dirs && run[i].dirs[run[i].names[Final(p)]] == Dir({}, false)
    ensures Takes(path, steps) && path[0] == run[i] && steps != [] && steps[0] == Begins(p)
    ensures var s', j := path[|steps|], run[i].next;
      Whole(s', p) && s'.names[Final(p)] in s'.placed && j in s'.jobs && s'.jobs[j] == Job(p, Replied(true))
  {
    RunKeeps(run, i);
    var s, j := run[i], run[i].next;
    var asked := s.(jobs := s.jobs[j := Job(p, Checking)], next := j + 1);
    assert Next(s, asked, Begins(p));
    NextKeeps(s, asked, Begins(p));
    var rest, work := UnpacksOnce(asked, j, p);
    TakesMore([s, asked], [Begins(p)], rest, work);
    path, steps := [s, asked] + rest[1..], [Begins(p)] + work;
  }

  lemma UnpacksOnce(s: State, j: Id, p: Package) returns (path: seq<State>, steps: seq<Step>)
    requires Inv(s) && In(s, j, Checking) && s.jobs[j].package == p && !IsThere(s, p) && Free(s, Final(p))
    ensures Takes(path, steps) && path[0] == s
    ensures var s' := path[|steps|];
      Whole(s', p) && s'.names[Final(p)] in s'.placed && j in s'.jobs && s'.jobs[j] == Job(p, Replied(true))
  {
    CompleteIsThere(s, p);
    var first, begin := BeginsExtracting(s, j, p);
    var second, extract := ExtractsAll(first[|begin|], j, p, {});
    var third, finish := Finishes(second[|extract|], j, p);
    TakesMore(first, begin, second, extract);
    path, steps := first + second[1..], begin + extract;
    TakesMore(path, steps, third, finish);
    path, steps := path + third[1..], steps + finish;
  }

  /** And one of a package that is there says so at once, and nothing is touched. */
  lemma FindsItThere(s: State, s': State, j: Id)
    requires Next(s, s', Checks(j)) && j in s.jobs && IsThere(s, s.jobs[j].package)
    ensures j in s'.jobs && s'.jobs[j].stage == Replied(true) && s' == s.(jobs := s'.jobs)
  {
    CompleteIsThere(s, s.jobs[j].package);
  }

  /** A removal that nothing disturbs empties what stands under its name and takes the name away. */
  lemma Removes(s: State, r: Id, n: Name) returns (path: seq<State>, steps: seq<Step>)
    requires r in s.removals && s.removals[r] == Removal(n, None) && n in s.names && s.names[n] in s.dirs
    ensures Takes(path, steps) && path[0] == s && path[|steps|].names == s.names - {n}
  {
    var inode := s.names[n];
    var all := s.dirs[inode].files;
    var s1 := s.(removals := s.removals[r := s.removals[r].(fd := Some(inode))]);
    var s2 := s1.(dirs := s1.dirs[inode := Dir({}, false)]);
    var s3 := s2.(removals := s2.removals - {r}, names := s2.names - {n});
    assert all - all == {};
    assert RemovalOpens(s, s1, r) && RemovalUnlinks(s1, s2, r, all, false) && RemovalEnds(s2, s3, r);
    path, steps := [s, s1, s2, s3], [Opens(r), Unlinks(r, all, false), Ends(r)];
  }

  /** A delete that is not refused renames the tree, and means to remove it. */
  lemma Dooms(s: State, p: Package) returns (path: seq<State>, steps: seq<Step>)
    requires Final(p) in s.names && Doomed(Final(p)) !in s.names
    ensures Takes(path, steps) && path[0] == s
    ensures var s', r := path[|steps|], s.next + 1;
      && s'.names == (s.names - {Final(p)})[Doomed(Final(p)) := s.names[Final(p)]] && s'.dirs == s.dirs
      && r in s'.removals && s'.removals[r] == Removal(Doomed(Final(p)), None)
  {
    var d, n, gone := s.next, Final(p), Doomed(Final(p));
    var s1 := s.(deletes := s.deletes[d := n], next := d + 1);
    var s2 := s1.(names := (s1.names - {n})[gone := s1.names[n]],
                removals := s1.removals[s1.next := Removal(gone, None)], next := s1.next + 1,
                  deletes := s1.deletes - {d});
    assert DeleteBegins(s, s1, n) && DeleteRenames(s1, s2, d, false);
    path, steps := [s, s1, s2], [DelBegins(n), DelRenames(d, false)];
  }

  /** And a delete of a tree that stands under its final name, with nothing in the way of the name it is given instead,
      gets rid of it: by its own steps to where neither name stands any more, and every other still does. */
  lemma DeletesWhatIsAsked(run: seq<State>, i: nat, p: Package) returns (path: seq<State>, steps: seq<Step>)
    requires IsRun(run) && i < |run| && Final(p) in run[i].names && Doomed(Final(p)) !in run[i].names
    ensures Takes(path, steps) && path[0] == run[i]
    ensures path[|steps|].names == run[i].names - {Final(p)}
  {
    RunKeeps(run, i);
    assert NameFits(run[i], Final(p));
    var first, doom := Dooms(run[i], p);
    var second, remove := Removes(first[|doom|], run[i].next + 1, Doomed(Final(p)));
    TakesMore(first, doom, second, remove);
    path, steps := first + second[1..], doom + remove;
    assert (run[i].names - {Final(p)})[Doomed(Final(p)) := run[i].names[Final(p)]] - {Doomed(Final(p))}
        == run[i].names - {Final(p)};
  }

  /** A sweep takes away what was left behind: a doomed tree, or the staging directory of an unpack that is no more. */
  lemma SweepsWhatIsLeft(run: seq<State>, i: nat, n: Name) returns (path: seq<State>, steps: seq<Step>)
    requires IsRun(run) && i < |run| && n in run[i].names
    requires Condemned(n) || (n.Staged? && n.job !in run[i].jobs)
    ensures Takes(path, steps) && path[0] == run[i] && path[|steps|].names == run[i].names - {n}
  {
    RunKeeps(run, i);
    assert NameFits(run[i], n);
    var s := run[i];
    var s1 := s.(removals := s.removals[s.next := Removal(n, None)], next := s.next + 1);
    assert Unpack.Sweep(s, s1, n);
    var rest, remove := Removes(s1, s.next, n);
    assert Takes([s, s1], [Sweeps(n)]);
    TakesMore([s, s1], [Sweeps(n)], rest, remove);
    path, steps := [s, s1] + rest[1..], [Sweeps(n)] + remove;
  }

  // ------------------------------------------------------------------ after a kill

  predicate Starts(a: Step) {
    a.Begins? || a.DelBegins? || a.Sweeps? || a.Restores?
  }

  /** Of a process that was killed nothing acts any more: until somebody begins something new, not a file changes. */
  lemma {:induction false} NothingOutlivesAKill(run: seq<State>, labels: seq<Step>, i: nat, k: nat)
    requires Labelled(run, labels) && i < k < |run| && labels[i] == Killed
    requires forall h :: i < h < k ==> !Starts(labels[h])
    ensures run[k].names == run[i].names && run[k].dirs == run[i].dirs
    ensures run[k].jobs == map[] && run[k].deletes == map[] && run[k].removals == map[]
    decreases k
  {
    assert Next(run[k - 1], run[k], labels[k - 1]);
    if k - 1 > i {
      NothingOutlivesAKill(run, labels, i, k - 1);
    }
  }
}
