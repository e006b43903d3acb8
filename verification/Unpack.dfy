/** Unpacking, deleting and sweeping source trees on one volume, with the process killed between any two steps.

    Directories are inodes; a removal in progress holds the inode it opened, whatever becomes of its name. */
module Unpack {
  import opened Options

  type Package = string
  type FileName = string
  type Id = nat

  /** A package's final name, that name with `.deleting` appended (perhaps more than once), or the tree in the
      staging directory of one unpack. */
  datatype Name = Final(package: Package) | Doomed(base: Name) | Staged(job: Id)

  predicate Condemned(n: Name) {
    match n
    case Final(_) => false
    case Doomed(b) => !b.Staged? && (b.Final? || Condemned(b))
    case Staged(_) => false
  }

  datatype Dir = Dir(files: set<FileName>, marker: bool)

  predicate Empty(d: Dir) {
    d.files == {} && !d.marker
  }

  /** An unpack, by what it is about to do. */
  datatype Phase =
    | Checking        // is the package there already?
    | Staging         // create the staging directory and start dpkg-source
    | Extracting
    | Extracted       // dpkg-source has succeeded; write the marker
    | Marked          // rename into place
    | Beaten          // the rename failed; is the package there by now?
    | Cleaning(ok: bool)
    | Replied(ok: bool)

  datatype Job = Job(package: Package, stage: Phase)

  /** A RemoveAll of a name: what it has open, if anything. */
  datatype Removal = Removal(name: Name, fd: Option<Id>)

  datatype State = State(
    pool: map<Package, set<FileName>>,   // what dpkg-source makes of each package
    next: Id, dirs: map<Id, Dir>, names: map<Name, Id>,
    jobs: map<Id, Job>, deletes: map<Id, Name>, removals: map<Id, Removal>,
    placed: set<Id>)                     // the trees some unpack renamed to a final name

  predicate Init(s: State) {
    s.next == 0 && s.dirs == map[] && s.names == map[] && s.jobs == map[] && s.deletes == map[] && s.removals == map[]
      && s.placed == {}
  }

  // ------------------------------------------------------------------ unpack

  predicate In(s: State, j: Id, stage: Phase) {
    j in s.jobs && s.jobs[j].stage == stage && s.jobs[j].package in s.pool
  }

  function Advance(s: State, j: Id, stage: Phase): State
    requires j in s.jobs
  {
    s.(jobs := s.jobs[j := s.jobs[j].(stage := stage)])
  }

  predicate Complete(s: State, n: Name) {
    n in s.names && s.names[n] in s.dirs && s.dirs[s.names[n]].marker
  }

  predicate Begin(s: State, s': State, p: Package) {
    p in s.pool && s' == s.(jobs := s.jobs[s.next := Job(p, Checking)], next := s.next + 1)
  }

  predicate Check(s: State, s': State, j: Id) {
    && In(s, j, Checking)
    && s' == Advance(s, j, if Complete(s, Final(s.jobs[j].package)) then Replied(true) else Staging)
  }

  predicate MakeStaging(s: State, s': State, j: Id) {
    && In(s, j, Staging)
    && s' == Advance(s, j, Extracting).(dirs := s.dirs[s.next := Dir({}, false)],
        names := s.names[Staged(j) := s.next], next := s.next + 1)
  }

  predicate Here(s: State, j: Id) {
    Staged(j) in s.names && s.names[Staged(j)] in s.dirs
  }

  predicate Extract(s: State, s': State, j: Id, f: FileName) {
    && In(s, j, Extracting) && Here(s, j) && f in s.pool[s.jobs[j].package]
    && var i := s.names[Staged(j)];
      s' == s.(dirs := s.dirs[i := s.dirs[i].(files := s.dirs[i].files + {f})])
  }

  /** dpkg-source exits with success once everything is there. */
  predicate ExtractEnds(s: State, s': State, j: Id) {
    && In(s, j, Extracting) && Here(s, j) && s.dirs[s.names[Staged(j)]].files == s.pool[s.jobs[j].package]
    && s' == Advance(s, j, Extracted)
  }

  predicate Mark(s: State, s': State, j: Id) {
    && In(s, j, Extracted) && Here(s, j)
    && var i := s.names[Staged(j)];
      s' == Advance(s, j, Marked).(dirs := s.dirs[i := s.dirs[i].(marker := true)])
  }

  /** rename(2) of a directory: the target must not exist, or be an empty directory. Go's os.Rename looks first and
      refuses any directory that it sees there, so that an empty one is replaced only if it came in between. */
  predicate Free(s: State, n: Name) {
    n in s.names ==> s.names[n] in s.dirs && Empty(s.dirs[s.names[n]])
  }

  predicate Place(s: State, s': State, j: Id, refused: bool) {
    && In(s, j, Marked)
    && var final := Final(s.jobs[j].package);
      s' == if !refused && Here(s, j) && Free(s, final)
            then Advance(s, j, Cleaning(true))
                   .(names := (s.names - {Staged(j)})[final := s.names[Staged(j)]], placed := s.placed
                     + {s.names[Staged(j)]})
            else Advance(s, j, Beaten)
  }

  predicate LookAgain(s: State, s': State, j: Id) {
    && In(s, j, Beaten)
    && s' == Advance(s, j, Cleaning(Complete(s, Final(s.jobs[j].package))))
  }

  /** A download, dpkg-source, the marker or the rename fails, or the request is cancelled. */
  predicate Fail(s: State, s': State, j: Id) {
    && j in s.jobs && !s.jobs[j].stage.Cleaning? && !s.jobs[j].stage.Replied?
    && s' == Advance(s, j, Cleaning(false))
  }

  /** The deferred RemoveAll of the staging directory begins. */
  predicate CleanUp(s: State, s': State, j: Id) {
    && j in s.jobs && s.jobs[j].stage.Cleaning?
    && s' == Advance(s, j, Replied(s.jobs[j].stage.ok)).(removals := s.removals[s.next := Removal(Staged(j), None)],
        next := s.next + 1)
  }

  // ------------------------------------------------------------------ delete and sweep

  /** A key may name a package, or - `/trees` lists those too - something already doomed. */
  predicate DeleteBegins(s: State, s': State, n: Name) {
    && (n.Final? || Condemned(n))
    && s' == s.(deletes := s.deletes[s.next := n], next := s.next + 1)
  }

  predicate DeleteRenames(s: State, s': State, d: Id, refused: bool) {
    && d in s.deletes
    && var n := s.deletes[d];
      s' == (if !refused && n in s.names && Free(s, Doomed(n))
             then s.(names := (s.names - {n})[Doomed(n) := s.names[n]],
               removals := s.removals[s.next := Removal(Doomed(n), None)], next := s.next + 1)
             else s)
              .(deletes := s.deletes - {d})
  }

  /** No unpack outlives the stale age, so a sweep that finds a staging directory old enough finds it abandoned. */
  predicate Sweep(s: State, s': State, n: Name) {
    && n in s.names
    && (Condemned(n) || (n.Staged? && (n.job in s.jobs ==> s.jobs[n.job].stage.Replied?)))
    && s' == s.(removals := s.removals[s.next := Removal(n, None)], next := s.next + 1)
  }

  predicate RemovalOpens(s: State, s': State, r: Id) {
    && r in s.removals && s.removals[r].name in s.names
    && s' == s.(removals := s.removals[r := s.removals[r].(fd := Some(s.names[s.removals[r].name]))])
  }

  /** Through the open directory, any of what is in it goes. */
  predicate RemovalUnlinks(s: State, s': State, r: Id, gone: set<FileName>, marker: bool) {
    && r in s.removals && s.removals[r].fd.Some? && s.removals[r].fd.value in s.dirs
    && var i := s.removals[r].fd.value;
      s' == s.(dirs := s.dirs[i := Dir(s.dirs[i].files - gone, s.dirs[i].marker && marker)])
  }

  /** rmdir by name: only an empty directory goes. */
  predicate RemovalEnds(s: State, s': State, r: Id) {
    && r in s.removals
    && var n := s.removals[r].name;
      s' == s.(removals := s.removals - {r}, names := if Free(s, n) then s.names - {n} else s.names)
  }

  // ------------------------------------------------------------------ the surroundings

  /** An operator puts a directory of their own where nothing stands. */
  predicate Restore(s: State, s': State, n: Name, d: Dir) {
    && (n.Final? || Condemned(n)) && n !in s.names
    && s' == s.(dirs := s.dirs[s.next := d], names := s.names[n := s.next], next := s.next + 1)
  }

  predicate Kill(s: State, s': State) {
    s' == s.(jobs := map[], deletes := map[], removals := map[])
  }

  datatype Step =
    | Begins(p: Package) | Checks(j: Id) | Stages(j: Id) | Extracts(j: Id, f: FileName) | ExtractDone(j: Id)
      | Marks(j: Id)
    | Places(j: Id, refused: bool) | LooksAgain(j: Id) | Fails(j: Id) | Cleans(j: Id)
    | DelBegins(n: Name) | DelRenames(d: Id, refused: bool) | Sweeps(n: Name)
    | Opens(r: Id) | Unlinks(r: Id, gone: set<FileName>, marker: bool) | Ends(r: Id)
    | Restores(n: Name, dir: Dir) | Killed

  predicate Next(s: State, s': State, a: Step) {
    match a
    case Begins(p) => Begin(s, s', p)
    case Checks(j) => Check(s, s', j)
    case Stages(j) => MakeStaging(s, s', j)
    case Extracts(j, f) => Extract(s, s', j, f)
    case ExtractDone(j) => ExtractEnds(s, s', j)
    case Marks(j) => Mark(s, s', j)
    case Places(j, refused) => Place(s, s', j, refused)
    case LooksAgain(j) => LookAgain(s, s', j)
    case Fails(j) => Fail(s, s', j)
    case Cleans(j) => CleanUp(s, s', j)
    case DelBegins(n) => DeleteBegins(s, s', n)
    case DelRenames(d, refused) => DeleteRenames(s, s', d, refused)
    case Sweeps(n) => Sweep(s, s', n)
    case Opens(r) => RemovalOpens(s, s', r)
    case Unlinks(r, gone, marker) => RemovalUnlinks(s, s', r, gone, marker)
    case Ends(r) => RemovalEnds(s, s', r)
    case Restores(n, d) => Restore(s, s', n, d)
    case Killed => Kill(s, s')
  }

  ghost predicate CanStep(s: State, s': State) {
    exists a :: Next(s, s', a)
  }

  ghost predicate StepAt(run: seq<State>, i: nat)
    requires i + 1 < |run|
  {
    CanStep(run[i], run[i + 1])
  }

  ghost predicate IsRun(run: seq<State>) {
    |run| > 0 && Init(run[0]) && forall i :: 0 <= i < |run| - 1 ==> StepAt(run, i)
  }

  // ------------------------------------------------------------------ the invariant

  predicate Live(s: State, j: Id) {
    j in s.jobs && !s.jobs[j].stage.Replied? && !s.jobs[j].stage.Cleaning?
  }

  /** Names lead to directories, no two to the same one; staged trees belong to jobs that exist or did. */
  predicate NameFits(s: State, n: Name) {
    && n in s.names && s.names[n] in s.dirs && s.names[n] < s.next
    && (n.Staged? ==> n.job < s.next && s.names[n] !in s.placed)
    && (n.Doomed? ==> Condemned(n))
    && (n.Final? && s.names[n] in s.placed ==> Whole(s, n.package))
  }

  predicate Whole(s: State, p: Package) {
    && Final(p) in s.names && s.names[Final(p)] in s.dirs
    && p in s.pool && s.dirs[s.names[Final(p)]] == Dir(s.pool[p], true)
  }

  ghost predicate Names(s: State) {
    && (forall n :: n in s.names ==> NameFits(s, n))
    && (forall n, m :: n in s.names && m in s.names && s.names[n] == s.names[m] ==> n == m)
    && (forall i :: i in s.dirs || i in s.placed ==> i < s.next)
    && (forall d :: d in s.deletes ==> s.deletes[d].Final? || Condemned(s.deletes[d]))
  }

  predicate JobFits(s: State, j: Id)
    requires j in s.jobs
  {
    var x := s.jobs[j];
    && j < s.next && x.package in s.pool
    && (x.stage.Extracting? || x.stage.Extracted? || x.stage.Marked? ==> Here(s, j))
    && (x.stage.Checking? || x.stage.Staging? ==> Staged(j) !in s.names)
    && (x.stage.Extracting? ==> !s.dirs[s.names[Staged(j)]].marker)
    && (x.stage.Extracted? || x.stage.Marked? ==> s.dirs[s.names[Staged(j)]] == Dir(s.pool[x.package], x.stage.Marked?))
  }

  ghost predicate Jobs(s: State) {
    forall j :: j in s.jobs ==> JobFits(s, j)
  }

  /** A removal goes after a doomed tree or an abandoned one, and the inode it has open stands under no final name
      and belongs to no unpack that is still at work. */
  ghost predicate RemovalFits(s: State, x: Removal) {
    && (Condemned(x.name) || (x.name.Staged? && x.name.job < s.next && !Live(s, x.name.job)))
    && (x.fd.Some? ==> Untouchable(s, x.fd.value))
  }

  ghost predicate Untouchable(s: State, i: Id) {
    && i < s.next
    && (forall p :: Final(p) in s.names ==> s.names[Final(p)] != i)
    && (forall j :: Live(s, j) && Staged(j) in s.names ==> s.names[Staged(j)] != i)
  }

  ghost predicate Removals(s: State) {
    forall r :: r in s.removals ==> RemovalFits(s, s.removals[r])
  }

  ghost predicate Inv(s: State) {
    Names(s) && Jobs(s) && Removals(s)
  }

  lemma InitHolds(s: State)
    requires Init(s)
    ensures Inv(s)
  {
  }

  /** Steps that leave the disk alone. */
  predicate OnlyThinks(a: Step) {
    a.Begins? || a.Checks? || a.ExtractDone? || a.LooksAgain? || a.Fails? || a.Cleans? || a.DelBegins? || a.Sweeps?
      || a.Opens? || a.Killed?
  }

  lemma ThinkingKeeps(s: State, s': State, a: Step)
    requires Inv(s) && Next(s, s', a) && OnlyThinks(a)
    ensures Inv(s')
  {
    assert s' == s.(jobs := s'.jobs, deletes := s'.deletes, removals := s'.removals, next := s'.next);
    assert s.next <= s'.next;
    forall n | n in s'.names ensures NameFits(s', n) {
      assert NameFits(s, n);
    }
    ThinkingJobs(s, s', a);
    ThinkingRemovals(s, s', a);
  }

  lemma ThinkingJobs(s: State, s': State, a: Step)
    requires Inv(s) && Next(s, s', a) && OnlyThinks(a)
    ensures Jobs(s')
    ensures forall j: Id :: Live(s', j) && j < s.next ==> Live(s, j)
  {
    forall j: Id | Staged(j) in s.names ensures j < s.next {
      assert NameFits(s, Staged(j));
    }
    if a.Checks? || a.ExtractDone? || a.LooksAgain? || a.Fails? || a.Cleans? {
      AdvancingJobs(s, s', a);
    } else {
      forall j | j in s'.jobs ensures JobFits(s', j) {
        if j in s.jobs {
          assert JobFits(s, j);
        }
      }
    }
  }

  lemma AdvancingJobs(s: State, s': State, a: Step)
    requires Inv(s) && Next(s, s', a) && (a.Checks? || a.ExtractDone? || a.LooksAgain? || a.Fails? || a.Cleans?)
    ensures Jobs(s')
    ensures forall j: Id :: Live(s', j) ==> Live(s, j)
  {
    assert s' == s.(jobs := s'.jobs, removals := s'.removals, next := s'.next) && s.next <= s'.next;
    assert JobFits(s, a.j);
    forall j | j in s'.jobs ensures JobFits(s', j) {
      assert JobFits(s, j);
    }
  }

  lemma ThinkingRemovals(s: State, s': State, a: Step)
    requires Inv(s) && Next(s, s', a) && OnlyThinks(a)
    requires forall j: Id :: Live(s', j) && j < s.next ==> Live(s, j)
    ensures Removals(s')
  {
    forall r | r in s'.removals ensures RemovalFits(s', s'.removals[r]) {
      if r in s.removals {
        assert RemovalFits(s, s.removals[r]);
        if a.Opens? && a.r == r {
          OpeningFits(s, r);
        }
        UntouchableStays(s, s', s'.removals[r]);
      } else if a.Sweeps? {
        assert NameFits(s, a.n);
      } else {
        assert a.Cleans? && JobFits(s, a.j);
      }
    }
  }

  lemma OpeningFits(s: State, r: Id)
    requires Inv(s) && r in s.removals && s.removals[r].name in s.names
    ensures Untouchable(s, s.names[s.removals[r].name])
  {
    assert RemovalFits(s, s.removals[r]);
    assert NameFits(s, s.removals[r].name);
  }

  lemma UntouchableStays(s: State, s': State, x: Removal)
    requires x.fd.Some? ==> Untouchable(s, x.fd.value)
    requires s'.names == s.names && s.next <= s'.next
    requires Names(s) && forall j: Id :: Live(s', j) && j < s.next ==> Live(s, j)
    ensures x.fd.Some? ==> Untouchable(s', x.fd.value)
  {
    if x.fd.Some? {
      forall j | Live(s', j) && Staged(j) in s'.names ensures s'.names[Staged(j)] != x.fd.value {
        assert NameFits(s, Staged(j));
      }
    }
  }

  predicate Appears(s: State, s': State, n: Name) {
    n !in s.names && s'.names == s.names[n := s.next] && s.next in s'.dirs
      && s'.dirs == s.dirs[s.next := s'.dirs[s.next]]
    && s'.next == s.next + 1 && s'.placed == s.placed && s'.pool == s.pool && s'.deletes == s.deletes
        && s'.removals == s.removals
  }

  /** A new directory appears under a new name. */
  lemma AppearingNames(s: State, s': State, n: Name)
    requires Names(s) && Appears(s, s', n) && (n.Staged? ==> n.job < s.next) && (n.Doomed? ==> Condemned(n))
    ensures Names(s')
  {
    forall m | m in s'.names ensures NameFits(s', m) {
      if m != n {
        assert NameFits(s, m);
      }
    }
    forall m, l | m in s'.names && l in s'.names && s'.names[m] == s'.names[l] ensures m == l {
      assert m != n ==> NameFits(s, m);
      assert l != n ==> NameFits(s, l);
    }
  }

  lemma AppearingJobs(s: State, s': State, a: Step)
    requires Inv(s) && Next(s, s', a) && (a.Stages? || a.Restores?)
    ensures Jobs(s') && forall j :: Live(s', j) ==> Live(s, j)
  {
    assert a.Stages? ==> JobFits(s, a.j);
    forall j | j in s'.jobs ensures JobFits(s', j) {
      assert JobFits(s, j);
      assert Staged(j) in s.names ==> NameFits(s, Staged(j));
    }
  }

  lemma AppearingRemovals(s: State, s': State, n: Name)
    requires Names(s) && Removals(s) && Appears(s, s', n) && forall j :: Live(s', j) ==> Live(s, j)
    ensures Removals(s')
  {
    forall r | r in s'.removals ensures RemovalFits(s', s'.removals[r]) {
      assert RemovalFits(s, s.removals[r]);
    }
  }

  lemma AppearingKeeps(s: State, s': State, a: Step)
    requires Inv(s) && Next(s, s', a) && (a.Stages? || a.Restores?)
    ensures Inv(s')
  {
    var n := if a.Stages? then Staged(a.j) else a.n;
    assert a.Stages? ==> JobFits(s, a.j);
    AppearingNames(s, s', n);
    AppearingJobs(s, s', a);
    AppearingRemovals(s, s', n);
  }

  /** dpkg-source, or the marker, writes into a staged tree: nobody else has it. */
  lemma WritingKeeps(s: State, s': State, a: Step)
    requires Inv(s) && Next(s, s', a) && (a.Extracts? || a.Marks?)
    ensures Inv(s')
  {
    assert JobFits(s, a.j);
    var mine := Staged(a.j);
    assert NameFits(s, mine);
    forall n | n in s'.names ensures NameFits(s', n) {
      assert NameFits(s, n);
    }
    forall j | j in s'.jobs ensures JobFits(s', j) {
      assert JobFits(s, j);
      assert j != a.j && Staged(j) in s.names ==> s.names[Staged(j)] != s.names[mine];
    }
    forall r | r in s'.removals ensures RemovalFits(s', s'.removals[r]) {
      assert RemovalFits(s, s.removals[r]);
    }
  }

  predicate Renamed(s: State, s': State, from: Name, to: Name) {
    && from in s.names && from != to && Free(s, to)
    && s'.names == (s.names - {from})[to := s.names[from]] && s'.dirs == s.dirs && s'.pool == s.pool
    && s.next <= s'.next && s.placed <= s'.placed
    && (s'.placed != s.placed ==> s'.placed == s.placed + {s.names[from]})
  }

  lemma RenamedNames(s: State, s': State, from: Name, to: Name)
    requires Names(s) && Renamed(s, s', from, to)
    requires if to.Final? then from.Staged? else s'.placed == s.placed && Condemned(to)
    requires to.Final? ==>
        to.package in s.pool && s.names[from] in s.dirs && s.dirs[s.names[from]] == Dir(s.pool[to.package], true)
    ensures forall n :: n in s'.names ==> NameFits(s', n)
    ensures forall n, m :: n in s'.names && m in s'.names && s'.names[n] == s'.names[m] ==> n == m
  {
    assert NameFits(s, from);
    forall n | n in s'.names ensures NameFits(s', n) {
      if n in s.names {
        assert NameFits(s, n);
      }
      assert n != to ==> s.names[n] != s.names[from];
    }
  }

  lemma PlacingKeeps(s: State, s': State, a: Step)
    requires Inv(s) && Next(s, s', a) && a.Places?
    ensures Inv(s')
  {
    assert JobFits(s, a.j);
    var mine, final := Staged(a.j), Final(s.jobs[a.j].package);
    assert NameFits(s, mine);
    if !a.refused && Free(s, final) {
      RenamedNames(s, s', mine, final);
    } else {
      assert s' == Advance(s, a.j, Beaten);
      forall n | n in s'.names ensures NameFits(s', n) {
        assert NameFits(s, n);
      }
    }
    PlacingJobs(s, s', a);
    PlacingRemovals(s, s', a);
  }

  lemma PlacingJobs(s: State, s': State, a: Step)
    requires Inv(s) && Next(s, s', a) && a.Places?
    ensures Jobs(s')
  {
    forall j | j in s'.jobs ensures JobFits(s', j) {
      assert JobFits(s, j);
    }
  }

  lemma PlacingRemovals(s: State, s': State, a: Step)
    requires Inv(s) && Next(s, s', a) && a.Places?
    ensures Removals(s')
  {
    assert JobFits(s, a.j);
    forall r | r in s'.removals ensures RemovalFits(s', s'.removals[r]) {
      assert RemovalFits(s, s.removals[r]);
      assert Live(s, a.j);
    }
  }

  lemma DoomingJobs(s: State, s': State, n: Name)
    requires Jobs(s) && !n.Staged? && Renamed(s, s', n, Doomed(n)) && s'.jobs == s.jobs
    ensures Jobs(s')
  {
    forall j | j in s'.jobs ensures JobFits(s', j) {
      assert JobFits(s, j);
    }
  }

  lemma DoomingRemovals(s: State, s': State, n: Name)
    requires Names(s) && Removals(s) && !n.Staged? && Condemned(Doomed(n)) && Renamed(s, s', n, Doomed(n))
    requires s'.jobs == s.jobs && s'.removals == s.removals[s.next := Removal(Doomed(n), None)]
    ensures Removals(s')
  {
    forall r | r in s'.removals ensures RemovalFits(s', s'.removals[r]) {
      if r in s.removals && r != s.next {
        assert RemovalFits(s, s.removals[r]);
      }
    }
  }

  /** A doomed tree is moved whole, and is under no final name from then on. */
  lemma DoomingKeeps(s: State, s': State, a: Step)
    requires Inv(s) && Next(s, s', a) && a.DelRenames?
    ensures Inv(s')
  {
    var n := s.deletes[a.d];
    if !a.refused && n in s.names && Free(s, Doomed(n)) {
      DifferentName(n);
      RenamedNames(s, s', n, Doomed(n));
      DoomingJobs(s, s', n);
      DoomingRemovals(s, s', n);
    } else {
      assert s' == s.(deletes := s'.deletes);
      NothingMoves(s, s');
    }
  }

  lemma {:induction false} DifferentName(n: Name)
    ensures n != Doomed(n)
  {
    if n.Doomed? {
      DifferentName(n.base);
    }
  }

  lemma NothingMoves(s: State, s': State)
    requires Inv(s) && s' == s.(deletes := s'.deletes)
    requires forall d :: d in s'.deletes ==> d in s.deletes && s'.deletes[d] == s.deletes[d]
    ensures Inv(s')
  {
    forall n | n in s'.names ensures NameFits(s', n) {
      assert NameFits(s, n);
    }
    forall j | j in s'.jobs ensures JobFits(s', j) {
      assert JobFits(s, j);
    }
    forall r | r in s'.removals ensures RemovalFits(s', s'.removals[r]) {
      assert RemovalFits(s, s.removals[r]);
    }
  }

  lemma RemovingKeeps(s: State, s': State, a: Step)
    requires Inv(s) && Next(s, s', a) && (a.Unlinks? || a.Ends?)
    ensures Inv(s')
  {
    var x := s.removals[a.r];
    assert RemovalFits(s, x);
    forall n | n in s'.names ensures NameFits(s', n) {
      assert NameFits(s, n);
    }
    forall j | j in s'.jobs ensures JobFits(s', j) {
      assert JobFits(s, j);
    }
    forall r | r in s'.removals ensures RemovalFits(s', s'.removals[r]) {
      assert RemovalFits(s, s.removals[r]);
    }
  }

  lemma NextKeeps(s: State, s': State, a: Step)
    requires Inv(s) && Next(s, s', a)
    ensures Inv(s')
  {
    match a
    case Stages(_) | Restores(_, _) => AppearingKeeps(s, s', a);
    case Extracts(_, _) | Marks(_) => WritingKeeps(s, s', a);
    case Places(_, _) => PlacingKeeps(s, s', a);
    case DelRenames(_, _) => DoomingKeeps(s, s', a);
    case Unlinks(_, _, _) | Ends(_) => RemovingKeeps(s, s', a);
    case _ => ThinkingKeeps(s, s', a);
  }

  lemma {:induction false} RunKeeps(run: seq<State>, i: nat)
    requires IsRun(run) && i < |run|
    ensures Inv(run[i])
    decreases i
  {
    if i == 0 {
      InitHolds(run[0]);
    } else {
      RunKeeps(run, i - 1);
      assert StepAt(run, i - 1);
      var a :| Next(run[i - 1], run[i - 1 + 1], a);
      NextKeeps(run[i - 1], run[i], a);
    }
  }

  // ------------------------------------------------------------------ the theorems

  /** What an unpack placed at a package's final name is the whole extracted tree with its marker, at
      every moment of every run. */
  lemma FinalIsWhole(run: seq<State>, i: nat, p: Package)
    requires IsRun(run) && i < |run| && Final(p) in run[i].names && run[i].names[Final(p)] in run[i].placed
    ensures Whole(run[i], p)
  {
    RunKeeps(run, i);
    assert NameFits(run[i], Final(p));
  }

  /** It leaves that name in one step, whole: what a step takes off a final name it has not touched. */
  lemma LeavesInOneStep(s: State, s': State, a: Step, p: Package)
    requires Inv(s) && Next(s, s', a) && Final(p) in s.names && s.names[Final(p)] in s.placed
    ensures var i := s.names[Final(p)];
      && i in s'.dirs && s'.dirs[i] == s.dirs[i] && i in s'.placed
      && ((Final(p) in s'.names && s'.names[Final(p)] == i)
          || (a.DelRenames? && Final(p) !in s'.names && Doomed(Final(p)) in s'.names
              && s'.names[Doomed(Final(p))] == i))
  {
    assert NameFits(s, Final(p));
    if a.Extracts? || a.Marks? {
      WritesElsewhere(s, s', a, p);
    } else if a.Unlinks? || a.Ends? {
      RemovesElsewhere(s, s', a, p);
    } else if a.DelRenames? || a.Places? {
      MovesWhole(s, s', a, p);
    } else {
      assert forall n :: n in s.names ==> n in s'.names && s'.names[n] == s.names[n];
    }
  }

  lemma WritesElsewhere(s: State, s': State, a: Step, p: Package)
    requires Inv(s) && Next(s, s', a) && (a.Extracts? || a.Marks?) && Final(p) in s.names && s.names[Final(p)] in s.dirs
    ensures s'.names == s.names && s'.placed == s.placed
    ensures s.names[Final(p)] in s'.dirs && s'.dirs[s.names[Final(p)]] == s.dirs[s.names[Final(p)]]
  {
    assert JobFits(s, a.j);
  }

  lemma RemovesElsewhere(s: State, s': State, a: Step, p: Package)
    requires Inv(s) && Next(s, s', a) && (a.Unlinks? || a.Ends?) && Final(p) in s.names && s.names[Final(p)] in s.dirs
    ensures Final(p) in s'.names && s'.names[Final(p)] == s.names[Final(p)] && s'.placed == s.placed
    ensures s.names[Final(p)] in s'.dirs && s'.dirs[s.names[Final(p)]] == s.dirs[s.names[Final(p)]]
  {
    assert RemovalFits(s, s.removals[a.r]);
  }

  lemma MovesWhole(s: State, s': State, a: Step, p: Package)
    requires Inv(s) && Next(s, s', a) && (a.DelRenames? || a.Places?) && Final(p) in s.names && Whole(s, p)
    ensures s'.dirs == s.dirs && s.placed <= s'.placed
    ensures ((Final(p) in s'.names && s'.names[Final(p)] == s.names[Final(p)])
      || (a.DelRenames? && Final(p) !in s'.names && Doomed(Final(p)) in s'.names
          && s'.names[Doomed(Final(p))] == s.names[Final(p)]))
  {
  }
}
