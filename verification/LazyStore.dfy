/** The lazy nix store: `Open` alternates the kernel's open with the mount of one missing store path. */
module LazyStore {
  import opened Namespace
  import opened Options
  import opened Paths
  import opened StoreNames
  import opened StoreWalk

  const MAX_RESOLVE_HOPS := 16

  datatype Outcome =
    | Opened(at: Path)
    | NotFound
    | Refused(why: Resolution)     // ENOTDIR or ELOOP: handed straight to the caller
    | EnsureFailed(name: string)
    | GaveUp

  /** What other requests mount during a hop: while the kernel opens, and while `missingFor` walks. */
  datatype Interference = Interference(opening: Others, walking: Others)

  /** `asked` lists the store paths that `Ensure` was called with. */
  datatype Run = Run(outcome: Outcome, hops: nat, asked: seq<string>)

  function KernelOpen(w: World, mounted: set<string>, path: Path): Resolution {
    Walk(w, mounted, [], path, KERNEL_LINKS)
  }

  /** Resolution with every store path mounted. */
  function Eager(w: World, path: Path): Resolution {
    KernelOpen(w, w.images.Keys, path)
  }

  function EagerVia(w: World, path: Path): seq<string> {
    Via(w, w.images.Keys, [], path, KERNEL_LINKS)
  }

  datatype Pass = Done(outcome: Outcome) | Mount(name: string)

  function Opening(w: World, m: Mounts, path: Path, other: Interference): Look {
    WalkBeside(w, m, other.opening, [], path, KERNEL_LINKS)
  }

  /** `missingFor`, after an open that failed. */
  function Walking(w: World, m: Mounts, path: Path, other: Interference): Sight {
    MissingBeside(w, Opening(w, m, path, other).seen, other.walking, [], path, MAX_RESOLVE_STEPS)
  }

  /** `Ensure` succeeds when the store path can be fetched, or is being mounted by a request that it then waits for. */
  predicate Ensured(m: Mounts, name: string, fetchable: set<string>) {
    name in m.live || name in fetchable
  }

  /** One pass of `Open`'s loop. */
  function OnePass(w: World, m: Mounts, path: Path, fetchable: set<string>, other: Interference): Pass {
    match Opening(w, m, path, other).res
    case Found(at) => Done(Opened(at))
    case NotDir(at) => Done(Refused(NotDir(at)))
    case TooManyLinks => Done(Refused(TooManyLinks))
    case NoEnt(_) =>
      var sight := Walking(w, m, path, other);
      match sight.gap
      case None => Done(NotFound)
      case Some(name) => if Ensured(sight.now, name, fetchable) then Mount(name) else Done(EnsureFailed(name))
  }

  /** The mounts after a pass that went on. */
  function NextMounts(w: World, m: Mounts, path: Path, other: Interference, name: string): Mounts {
    Walking(w, m, path, other).now.With(name)
  }

  /** `Open` with one hop for each element of `others`; a fetch succeeds for the names in `fetchable`. */
  function Lazy(w: World, m: Mounts, path: Path, fetchable: set<string>, others: seq<Interference>): Run
    decreases |others|
  {
    if others == [] then Run(GaveUp, 0, [])
    else
      match OnePass(w, m, path, fetchable, others[0])
      case Done(outcome) => Run(outcome, 0, [])
      case Mount(name) =>
        var r := Lazy(w, NextMounts(w, m, path, others[0], name), path, fetchable, others[1..]);
        Run(r.outcome, r.hops + 1, [name] + r.asked)
  }

  predicate RealHop(w: World, other: Interference) {
    Real(w, other.opening) && Real(w, other.walking)
  }

  /** A world, a path and a fetcher as `Open` meets them: a clean rooted path, only real store paths mounted. */
  ghost predicate Setting(w: World, m: Mounts, path: Path, fetchable: set<string>, others: seq<Interference>) {
    && Valid(w) && AllOrdinary(path)
    && m.Sound(w) && fetchable <= w.images.Keys
    && forall i :: 0 <= i < |others| ==> RealHop(w, others[i])
  }

  /** Nobody else is mounting anything. */
  ghost predicate Alone(m: Mounts, others: seq<Interference>) {
    m.live == m.listed && forall i :: 0 <= i < |others| ==> others[i] == Interference([], [])
  }

  /** What `missingFor` can follow: the ".." of every link that the eager resolution follows come first, and the whole
      of that resolution fits into its steps. */
  ghost predicate Walkable(w: World, path: Path) {
    && DotsLeadOn(w, w.images.Keys, [], path, KERNEL_LINKS)
    && Scan(w, w.images.Keys, [], path, KERNEL_LINKS).steps <= MAX_RESOLVE_STEPS
  }

  /** A pass beside other requests is a pass in three moments: the namespace of the open's last lookup, that of the
      walk's last lookup, and the mounts when the walk looked into the table. */
  lemma PassAtOnce(w: World, m: Mounts, path: Path, other: Interference)
    requires Valid(w) && m.Sound(w) && RealHop(w, other)
    ensures var look, sight := Opening(w, m, path, other), Walking(w, m, path, other);
      && m.Within(look.seen) && look.seen.Within(sight.seen) && sight.seen.Within(sight.now) && sight.now.Sound(w)
      && look.res == KernelOpen(w, look.seen.live, path)
      && SaysSo(w, sight, [], path, MAX_RESOLVE_STEPS)
  {
    RootIsDir(w, m.live);
    OpenAtOnce(w, m, other.opening, [], path, KERNEL_LINKS);
    MissingAtOnce(w, Opening(w, m, path, other).seen, other.walking, [], path, MAX_RESOLVE_STEPS);
  }

  lemma SettingNext(w: World, m: Mounts, path: Path, fetchable: set<string>, others: seq<Interference>, name: string)
    requires Setting(w, m, path, fetchable, others) && others != []
    requires Ensured(Walking(w, m, path, others[0]).now, name, fetchable)
    ensures Setting(w, NextMounts(w, m, path, others[0], name), path, fetchable, others[1..])
    ensures m.Within(NextMounts(w, m, path, others[0], name)) && name in w.images
  {
    assert RealHop(w, others[0]);
    PassAtOnce(w, m, path, others[0]);
    var rest := others[1..];
    forall i | 0 <= i < |rest| ensures RealHop(w, rest[i]) {
      assert rest[i] == others[i + 1];
    }
  }

  /** What a run looks like from some pass on: `rest` is still to come. */
  predicate Resumes(whole: Run, hops: nat, asked: seq<string>, rest: Run) {
    whole == Run(rest.outcome, hops + rest.hops, asked + rest.asked)
  }

  lemma ResumesOn(whole: Run, hops: nat, asked: seq<string>, rest: Run, name: string)
    requires Resumes(whole, hops, asked, Run(rest.outcome, rest.hops + 1, [name] + rest.asked))
    ensures Resumes(whole, hops + 1, asked + [name], rest)
  {
    assert asked + ([name] + rest.asked) == asked + [name] + rest.asked;
  }

  /** `Open`'s loop, one pass on. */
  lemma LazyUnfolds(w: World, m: Mounts, path: Path, fetchable: set<string>, others: seq<Interference>)
    requires others != []
    ensures var pass, run := OnePass(w, m, path, fetchable, others[0]), Lazy(w, m, path, fetchable, others);
      && (pass.Done? ==> run == Run(pass.outcome, 0, []))
      && (pass.Mount? ==>
            var r := Lazy(w, NextMounts(w, m, path, others[0], pass.name), path, fetchable, others[1..]);
            && Ensured(Walking(w, m, path, others[0]).now, pass.name, fetchable)
            && run == Run(r.outcome, r.hops + 1, [pass.name] + r.asked))
  {
  }

  /** Either the kernel already answers as it would with everything mounted, or it stopped at the root of
      an unmounted store path that the eager resolution goes through. */
  lemma OpenFrame(w: World, m: set<string>, path: Path)
    requires Valid(w) && m <= w.images.Keys
    ensures var r := KernelOpen(w, m, path);
      || (r == Eager(w, path) && Via(w, m, [], path, KERNEL_LINKS) == EagerVia(w, path))
      || (Stuck(w, m, r) && r.at[|w.root|] in w.images
          && Via(w, m, [], path, KERNEL_LINKS) + [r.at[|w.root|]] <= EagerVia(w, path))
  {
    RootIsDir(w, m);
    MountFrame(w, m, w.images.Keys, [], path, KERNEL_LINKS);
  }

  /** How `Open` passes on where the kernel got. */
  function Settled(r: Resolution): Outcome
    requires !r.NoEnt?
  {
    if r.Found? then Opened(r.at) else Refused(r)
  }

  /** What the kernel resolved, or refused, is what it would have with everything mounted. */
  lemma SettledIsEager(w: World, m: Mounts, path: Path, fetchable: set<string>, other: Interference)
    requires Valid(w) && m.Sound(w) && RealHop(w, other) && !Opening(w, m, path, other).res.NoEnt?
    ensures !Eager(w, path).NoEnt? && OnePass(w, m, path, fetchable, other) == Done(Settled(Eager(w, path)))
  {
    PassAtOnce(w, m, path, other);
    OpenFrame(w, Opening(w, m, path, other).seen.live, path);
  }

  /** Whatever the interference, the hop limit and the fetcher: a file that `Open` returns, and an error
      other than not-found that it passes on, is what the fully mounted namespace would have given. */
  lemma {:induction false} AnswersAreEager(w: World, m: Mounts, path: Path, fetchable: set<string>,
          others: seq<Interference>)
    requires Setting(w, m, path, fetchable, others)
    ensures var out := Lazy(w, m, path, fetchable, others).outcome;
      && (out.Opened? ==> Eager(w, path) == Found(out.at))
      && (out.Refused? ==> Eager(w, path) == out.why && !out.why.Found? && !out.why.NoEnt?)
    decreases |others|
  {
    if others == [] {
    } else {
      assert RealHop(w, others[0]);
      LazyUnfolds(w, m, path, fetchable, others);
      var pass := OnePass(w, m, path, fetchable, others[0]);
      if !Opening(w, m, path, others[0]).res.NoEnt? {
        SettledIsEager(w, m, path, fetchable, others[0]);
      } else if pass.Mount? {
        SettingNext(w, m, path, fetchable, others, pass.name);
        AnswersAreEager(w, NextMounts(w, m, path, others[0], pass.name), path, fetchable, others[1..]);
      }
    }
  }

  /** What `missingFor` answers on a namespace, by how the kernel's open would end there. */
  lemma GapIs(w: World, m: set<string>, path: Path)
    requires Valid(w) && AllOrdinary(path) && Walkable(w, path) && m <= w.images.Keys
    ensures var r, gap := KernelOpen(w, m, path), Missing(w, m, [], path, MAX_RESOLVE_STEPS);
      && (r.NoEnt? ==> gap == Unmounted(w, m, r.at))
      && (r.Found? || r.NotDir? ==> gap == None)
  {
    ReachedRoot(w, m);
    DotsLeadOnFrame(w, m, w.images.Keys, [], path, KERNEL_LINKS);
    ScanFrame(w, m, w.images.Keys, [], path, KERNEL_LINKS);
    ScanIsWalk(w, m, [], path, KERNEL_LINKS);
    MissingNamesTheGap(w, m, [], path, KERNEL_LINKS, MAX_RESOLVE_STEPS);
  }

  lemma {:induction false} NoEntIsAbsent(w: World, m: set<string>, cur: Path, parts: seq<string>, links: nat)
    requires Valid(w) && Walk(w, m, cur, parts, links).NoEnt?
    ensures var at := Walk(w, m, cur, parts, links).at;
      at != [] && Lstat(w, m, at) == None && IsDir(w, m, Parent(at))
    decreases links, |parts|
  {
    var next := cur + [parts[0]];
    if parts[0] == ".." {
      NoEntIsAbsent(w, m, Parent(cur), parts[1..], links);
    } else if Lstat(w, m, next).Some? {
      var node := Lstat(w, m, next).value;
      if node.Link? {
        NoEntIsAbsent(w, m, if node.target.absolute then [] else cur, node.target.parts + parts[1..], links - 1);
      } else {
        NoEntIsAbsent(w, m, next, parts[1..], links);
      }
    } else {
      assert Parent(next) == cur;
    }
  }

  lemma MountedRootIsDir(w: World, m: set<string>, at: Path)
    requires Valid(w) && InImage(w, at) && |at| == |w.root| + 1
    requires at[|w.root|] in m && at[|w.root|] in w.images
    ensures IsDir(w, m, at)
  {
    assert at[|w.root| + 1..] == [];
  }

  /** A canonically spelled name that `missingFor` gives is the one resolution is stuck at. */
  lemma GapIsStuck(w: World, m: set<string>, path: Path)
    requires Valid(w) && KernelOpen(w, m, path).NoEnt?
    requires var at := KernelOpen(w, m, path).at; Unmounted(w, m, at).Some? && Canonical(at[|w.root|])
    ensures Stuck(w, m, KernelOpen(w, m, path))
  {
    NoEntIsAbsent(w, m, [], path, KERNEL_LINKS);
    var at := KernelOpen(w, m, path).at;
    if |at| > |w.root| + 1 {
      BelowMounted(w, m, at);
    }
  }

  /** The store paths of `via` that are not in `mounted`, each once, in the order they are first met. */
  function Needed(via: seq<string>, mounted: set<string>): seq<string>
    decreases |via|
  {
    if via == [] then []
    else if via[0] in mounted then Needed(via[1..], mounted)
    else [via[0]] + Needed(via[1..], mounted + {via[0]})
  }

  lemma {:induction false} NeededSkips(pre: seq<string>, post: seq<string>, m: set<string>)
    requires forall n :: n in pre ==> n in m
    ensures Needed(pre + post, m) == Needed(post, m)
    decreases |pre|
  {
    if pre == [] {
      assert pre + post == post;
    } else {
      assert pre[0] in pre;
      assert (pre + post)[1..] == pre[1..] + post;
      NeededSkips(pre[1..], post, m);
    }
  }

  lemma NeededNext(via: seq<string>, pre: seq<string>, name: string, m: set<string>)
    requires pre + [name] <= via && name !in m && forall n :: n in pre ==> n in m
    ensures Needed(via, m) == [name] + Needed(via, m + {name})
  {
    var post := via[|pre| + 1..];
    assert via == pre + ([name] + post);
    NeededSkips(pre, [name] + post, m);
    assert ([name] + post)[1..] == post;
    NeededSkips(pre + [name], post, m + {name});
    assert pre + [name] + post == via;
  }

  /** Resolution enters only store paths that are mounted. */
  lemma {:induction false} ViaIsMounted(w: World, m: set<string>, cur: Path, parts: seq<string>, links: nat)
    ensures forall n :: n in Via(w, m, cur, parts, links) ==> n in m && n in w.images
    decreases links, |parts|
  {
    if parts != [] && IsDir(w, m, cur) {
      var next := cur + [parts[0]];
      if parts[0] == ".." {
        ViaIsMounted(w, m, Parent(cur), parts[1..], links);
      } else if Lstat(w, m, next).Some? {
        var node := Lstat(w, m, next).value;
        if !node.Link? {
          ViaIsMounted(w, m, next, parts[1..], links);
        } else if links > 0 {
          ViaIsMounted(w, m, if node.target.absolute then [] else cur, node.target.parts + parts[1..], links - 1);
        }
      }
    }
  }

  lemma {:induction false} NothingNeeded(via: seq<string>, m: set<string>)
    requires forall n :: n in via ==> n in m
    ensures Needed(via, m) == []
  {
    NeededSkips(via, [], m);
    assert via + [] == via;
  }

  /** A hop that stops short: the walk names the store path that the kernel stopped at. */
  lemma StoppedShort(w: World, m: set<string>, path: Path)
    requires Valid(w) && AllOrdinary(path) && Walkable(w, path) && m <= w.images.Keys
    requires KernelOpen(w, m, path) != Eager(w, path)
    ensures var r, via := KernelOpen(w, m, path), EagerVia(w, path);
      && Stuck(w, m, r) && r.at[|w.root|] in w.images
      && Missing(w, m, [], path, MAX_RESOLVE_STEPS) == Some(r.at[|w.root|])
      && Needed(via, m) == [r.at[|w.root|]] + Needed(via, m + {r.at[|w.root|]})
  {
    OpenFrame(w, m, path);
    GapIs(w, m, path);
    ViaIsMounted(w, m, [], path, KERNEL_LINKS);
    NeededNext(EagerVia(w, path), Via(w, m, [], path, KERNEL_LINKS), KernelOpen(w, m, path).at[|w.root|], m);
  }

  lemma ThereAlready(w: World, m: set<string>, path: Path)
    requires Valid(w) && m <= w.images.Keys && KernelOpen(w, m, path) == Eager(w, path)
    ensures Needed(EagerVia(w, path), m) == []
  {
    OpenFrame(w, m, path);
    ViaIsMounted(w, m, [], path, KERNEL_LINKS);
    if Via(w, m, [], path, KERNEL_LINKS) != EagerVia(w, path) {
      var at := Eager(w, path).at;
      NoEntIsAbsent(w, w.images.Keys, [], path, KERNEL_LINKS);
      MountedRootIsDir(w, w.images.Keys, at);
    }
    NothingNeeded(EagerVia(w, path), m);
  }

  /** One hop on the way to where eager resolution ends: the kernel is there, or the next needed store path is named. */
  lemma Hop(w: World, m: set<string>, path: Path)
    requires Valid(w) && AllOrdinary(path) && Walkable(w, path) && m <= w.images.Keys
    ensures var r, need := KernelOpen(w, m, path), Needed(EagerVia(w, path), m);
      && (need == [] ==> r == Eager(w, path))
      && (need != [] ==>
            && r.NoEnt? && need[0] in w.images && need[0] !in m
            && Missing(w, m, [], path, MAX_RESOLVE_STEPS) == Some(need[0])
            && Needed(EagerVia(w, path), m + {need[0]}) == need[1..])
  {
    if KernelOpen(w, m, path) == Eager(w, path) {
      ThereAlready(w, m, path);
    } else {
      StoppedShort(w, m, path);
    }
  }

  /** What the walk beside others answers, by what is still needed in the namespace of its last lookup. */
  lemma SightExact(w: World, m: Mounts, path: Path, other: Interference)
    requires Valid(w) && AllOrdinary(path) && Walkable(w, path) && !Eager(w, path).NoEnt?
    requires m.Sound(w) && RealHop(w, other)
    ensures var sight := Walking(w, m, path, other);
      var late := Needed(EagerVia(w, path), sight.seen.live);
      && (sight.gap == None ==> late == [] || late[0] in sight.now.listed)
      && (sight.gap.Some? ==> sight.gap.value !in sight.now.listed)
      && (sight.gap.Some? && sight.gap.value !in sight.seen.live && !Eager(w, path).TooManyLinks? ==>
            late != [] && late[0] == sight.gap.value)
      && (sight.gap.Some? && late != [] && sight.gap.value !in sight.seen.live ==> late[0] == sight.gap.value)
      && (late != [] ==> late[0] in w.images)
  {
    PassAtOnce(w, m, path, other);
    var sight := Walking(w, m, path, other);
    Hop(w, sight.seen.live, path);
    if sight.gap.Some? && sight.gap.value !in sight.seen.live {
      assert sight.seen.live - {sight.gap.value} == sight.seen.live;
    }
    if Needed(EagerVia(w, path), sight.seen.live) == [] {
      GapIs(w, sight.seen.live, path);
    }
  }

  /** The walk was outrun: the table kept up with it, and either nothing is needed any more in the namespace of its last
      lookup, or what is needed there first was in the table by the time it looked. */
  ghost predicate Outrun(w: World, m: Mounts, path: Path, other: Interference) {
    var sight := Walking(w, m, path, other);
    var late := Needed(EagerVia(w, path), sight.seen.live);
    && KeepsUp(w, Opening(w, m, path, other).seen, other.walking, [], path, MAX_RESOLVE_STEPS)
    && (late == [] || late[0] in sight.now.listed)
  }

  /** One pass of the loop, exactly. What is needed when the kernel opens decides whether it ends here; not-found is
      then answered if and only if the walk was outrun; and otherwise the pass asks for a store path that is not
      listed: the first one still needed, or one that is there already and about to be listed. */
  lemma OnePassExact(w: World, m: Mounts, path: Path, fetchable: set<string>, other: Interference)
    requires Valid(w) && AllOrdinary(path) && Walkable(w, path) && !Eager(w, path).NoEnt?
    requires m.Sound(w) && RealHop(w, other)
    ensures var sight, pass := Walking(w, m, path, other), OnePass(w, m, path, fetchable, other);
      var early := Needed(EagerVia(w, path), Opening(w, m, path, other).seen.live);
      var late := Needed(EagerVia(w, path), sight.seen.live);
      && (early == [] ==> pass == Done(Settled(Eager(w, path))))
      && (early != [] && !Eager(w, path).TooManyLinks? ==> (pass == Done(NotFound) <==> Outrun(w, m, path, other)))
      && (early != [] && pass == Done(NotFound) ==> Outrun(w, m, path, other))
      && (early != [] && pass != Done(NotFound) ==>
            && sight.gap.Some? && sight.gap.value !in sight.now.listed
            && (sight.gap.value in sight.seen.live || late == [] || sight.gap.value == late[0])
            && pass == if Ensured(sight.now, sight.gap.value, fetchable) then Mount(sight.gap.value)
                       else Done(EnsureFailed(sight.gap.value)))
      && (early != [] && !Outrun(w, m, path, other) ==> pass != Done(NotFound) && sight.gap.value in w.images)
  {
    PassAtOnce(w, m, path, other);
    Hop(w, Opening(w, m, path, other).seen.live, path);
    if Needed(EagerVia(w, path), Opening(w, m, path, other).seen.live) == [] {
      SettledIsEager(w, m, path, fetchable, other);
    } else {
      SightExact(w, m, path, other);
      KeptUp(w, Opening(w, m, path, other).seen, other.walking, [], path, MAX_RESOLVE_STEPS);
    }
  }

  /** At some hop something was needed when the kernel opened, and the walk that followed was outrun. */
  ghost predicate Raced(w: World, m: Mounts, path: Path, fetchable: set<string>, others: seq<Interference>)
    decreases |others|
  {
    others != [] &&
    var sight := Walking(w, m, path, others[0]);
    && Needed(EagerVia(w, path), Opening(w, m, path, others[0]).seen.live) != []
    && (|| Outrun(w, m, path, others[0])
        || (sight.gap.Some? && Ensured(sight.now, sight.gap.value, fetchable)
            && Raced(w, NextMounts(w, m, path, others[0], sight.gap.value), path, fetchable, others[1..])))
  }

  /** Where the eager resolution ends at a file, not-found is answered exactly when the request was raced. */
  lemma {:induction false} RacedExactly(w: World, m: Mounts, path: Path, fetchable: set<string>,
          others: seq<Interference>)
    requires Setting(w, m, path, fetchable, others) && Walkable(w, path) && !Eager(w, path).NoEnt?
    ensures var out, raced := Lazy(w, m, path, fetchable, others).outcome, Raced(w, m, path, fetchable, others);
      && (out.NotFound? ==> raced)
      && (raced && !Eager(w, path).TooManyLinks? ==> out.NotFound?)
      && (out.EnsureFailed? && !raced ==> out.name in w.images)
    decreases |others|
  {
    if others == [] {
    } else {
      assert RealHop(w, others[0]);
      LazyUnfolds(w, m, path, fetchable, others);
      OnePassExact(w, m, path, fetchable, others[0]);
      var pass := OnePass(w, m, path, fetchable, others[0]);
      if pass.Mount? {
        SettingNext(w, m, path, fetchable, others, pass.name);
        RacedExactly(w, NextMounts(w, m, path, others[0], pass.name), path, fetchable, others[1..]);
      }
    }
  }

  lemma {:induction false} FailedIsUnfetchable(w: World, m: Mounts, path: Path, fetchable: set<string>,
          others: seq<Interference>)
    ensures var out := Lazy(w, m, path, fetchable, others).outcome; out.EnsureFailed? ==> out.name !in fetchable
    decreases |others|
  {
    if others == [] {
    } else {
      LazyUnfolds(w, m, path, fetchable, others);
      var pass := OnePass(w, m, path, fetchable, others[0]);
      if pass.Mount? {
        FailedIsUnfetchable(w, NextMounts(w, m, path, others[0], pass.name), path, fetchable, others[1..]);
      }
    }
  }

  /** A not-found answer is wrong exactly when the request was raced. When it was not, a failed fetch is one of a
      store path that exists, or the path does not resolve with everything mounted either. */
  lemma NotFoundIsRight(w: World, m: Mounts, path: Path, fetchable: set<string>, others: seq<Interference>)
    requires Setting(w, m, path, fetchable, others) && Walkable(w, path)
    ensures var out, eager := Lazy(w, m, path, fetchable, others).outcome, Eager(w, path);
      var raced := Raced(w, m, path, fetchable, others);
      && (out.NotFound? ==> eager.NoEnt? || raced)
      && (eager.Found? || eager.NotDir? ==> (out.NotFound? <==> raced))
      && (out.EnsureFailed? ==> out.name !in fetchable)
      && (out.EnsureFailed? && !raced ==> out.name in w.images || eager.NoEnt?)
  {
    FailedIsUnfetchable(w, m, path, fetchable, others);
    if !Eager(w, path).NoEnt? {
      RacedExactly(w, m, path, fetchable, others);
    }
  }

  function Min(a: nat, b: nat): nat {
    if a <= b then a else b
  }

  /** `run` asked for what was wanted, in that order, as far as its hops went, and ended with `last` if that was all. */
  predicate AskedInOrder(run: Run, wanted: seq<string>, hops: nat, last: Outcome) {
    && run.outcome == (if |wanted| < hops then last else GaveUp)
    && run.asked == wanted[..Min(|wanted|, hops)]
    && run.hops == |run.asked|
  }

  lemma AskedOneMore(run: Run, wanted: seq<string>, hops: nat, last: Outcome)
    requires wanted != [] && AskedInOrder(run, wanted[1..], hops, last)
    ensures AskedInOrder(Run(run.outcome, run.hops + 1, [wanted[0]] + run.asked), wanted, hops + 1, last)
  {
    assert [wanted[0]] + wanted[1..] == wanted;
  }

  /** How `Open` puts the answer of the fully mounted namespace. A path that ends at a store path which does not exist
      fails because that one cannot be fetched. */
  function EagerOutcome(w: World, path: Path): Outcome {
    match Eager(w, path)
    case NoEnt(at) =>
      (match Unmounted(w, w.images.Keys, at)
       case Some(name) => EnsureFailed(name)
       case None => NotFound)
    case r => Settled(r)
  }

  /** The store paths that resolution needs and does not have yet; and, where it ends at nothing that is called like a
      store path with capitals in its hash, that one. */
  function Wanted(w: World, path: Path, m: set<string>): seq<string> {
    var need := Needed(EagerVia(w, path), m);
    var r := Eager(w, path);
    if !r.NoEnt? then need
    else match Unmounted(w, m + (set n | n in need), r.at)
      case Some(name) => if name in w.images then need + [name] else need
      case None => need
  }

  lemma WantedNext(w: World, path: Path, m: set<string>, name: string)
    requires var need := Needed(EagerVia(w, path), m);
      need != [] && need[0] == name && Needed(EagerVia(w, path), m + {name}) == need[1..]
    ensures Wanted(w, path, m) != [] && Wanted(w, path, m)[0] == name
    ensures Wanted(w, path, m)[1..] == Wanted(w, path, m + {name})
  {
    var need := Needed(EagerVia(w, path), m);
    assert need == [name] + need[1..];
    assert m + (set n | n in need) == m + {name} + (set n | n in need[1..]);
  }

  lemma {:induction false} StillWalk(w: World, m: Mounts, cur: Path, parts: seq<string>, links: nat)
    ensures WalkBeside(w, m, [], cur, parts, links) == Look(Walk(w, m.live, cur, parts, links), m)
    decreases links, |parts|
  {
    if parts == [] || !IsDir(w, m.live, cur) {
    } else if parts[0] == ".." {
      StillWalk(w, m, Parent(cur), parts[1..], links);
    } else if Lstat(w, m.live, cur + [parts[0]]).Some? {
      var node := Lstat(w, m.live, cur + [parts[0]]).value;
      if !node.Link? {
        StillWalk(w, m, cur + [parts[0]], parts[1..], links);
      } else if links > 0 {
        StillWalk(w, m, if node.target.absolute then [] else cur, node.target.parts + parts[1..], links - 1);
      }
    }
  }

  lemma {:induction false} StillMissing(w: World, m: Mounts, cur: Path, parts: seq<string>, fuel: nat)
    requires m.live == m.listed
    ensures MissingBeside(w, m, [], cur, parts, fuel) == Sight(Missing(w, m.live, cur, parts, fuel), m, m)
    decreases fuel
  {
    if fuel == 0 || parts == [] {
    } else {
      PassesBeside(w, m, [], cur, parts, fuel, fuel - 1);
      MissingSteps(w, m.live, cur, parts, fuel);
      match Child(w, m.live, cur, parts[0])
      case None =>
      case Some(Link(t)) => StillMissing(w, m, [], Splice(cur, t) + parts[1..], fuel - 1);
      case Some(_) => StillMissing(w, m, cur + [parts[0]], parts[1..], fuel - 1);
    }
  }

  /** With nobody else about, a pass sees one namespace. */
  lemma QuietPass(w: World, m: Mounts, path: Path, other: Interference)
    requires m.live == m.listed && other == Interference([], [])
    ensures Opening(w, m, path, other) == Look(KernelOpen(w, m.live, path), m)
    ensures Walking(w, m, path, other) == Sight(Missing(w, m.live, [], path, MAX_RESOLVE_STEPS), m, m)
  {
    StillWalk(w, m, [], path, KERNEL_LINKS);
    StillMissing(w, m, [], path, MAX_RESOLVE_STEPS);
  }

  /** One hop before a run that asks in order is a run that asks in order. */
  lemma AsksThenRest(w: World, m: Mounts, path: Path, others: seq<Interference>, wanted: seq<string>, last: Outcome)
    requires others != [] && m.live == m.listed && others[0] == Interference([], [])
    requires KernelOpen(w, m.live, path).NoEnt?
    requires wanted != [] && wanted[0] in w.images && Missing(w, m.live, [], path, MAX_RESOLVE_STEPS) == Some(wanted[0])
    requires AskedInOrder(Lazy(w, m.With(wanted[0]), path, w.images.Keys, others[1..]), wanted[1..], |others| - 1, last)
    ensures AskedInOrder(Lazy(w, m, path, w.images.Keys, others), wanted, |others|, last)
  {
    QuietPass(w, m, path, others[0]);
    LazyUnfolds(w, m, path, w.images.Keys, others);
    AskedOneMore(Lazy(w, m.With(wanted[0]), path, w.images.Keys, others[1..]), wanted, |others| - 1, last);
  }

  /** A run that wants nothing more ends at once, as the fully mounted namespace has it. */
  lemma EndsAsEager(w: World, m: Mounts, path: Path, others: seq<Interference>)
    requires Setting(w, m, path, w.images.Keys, others) && Alone(m, others) && others != [] && Walkable(w, path)
    requires Wanted(w, path, m.live) == []
    ensures AskedInOrder(Lazy(w, m, path, w.images.Keys, others), [], |others|, EagerOutcome(w, path))
  {
    Hop(w, m.live, path);
    QuietPass(w, m, path, others[0]);
    LazyUnfolds(w, m, path, w.images.Keys, others);
    assert m.live + {} == m.live;
    if Eager(w, path).NoEnt? {
      GapIs(w, m.live, path);
    }
  }

  lemma WantedLast(w: World, m: set<string>, path: Path)
    requires m <= w.images.Keys && Needed(EagerVia(w, path), m) == [] && Wanted(w, path, m) != []
    ensures Eager(w, path).NoEnt?
    ensures var gap := Unmounted(w, m, Eager(w, path).at);
      gap.Some? && gap.value in w.images && Wanted(w, path, m) == [gap.value] && Wanted(w, path, m + {gap.value}) == []
  {
    assert m + {} == m;
    var name := Unmounted(w, m, Eager(w, path).at).value;
    NeededShrinks(EagerVia(w, path), m, m + {name});
    assert m + {name} + {} == m + {name};
  }

  /** The first store path wanted is the one that the walk names, and the rest are wanted after it. */
  lemma FirstWanted(w: World, m: set<string>, path: Path)
    requires Valid(w) && AllOrdinary(path) && Walkable(w, path) && m <= w.images.Keys && Wanted(w, path, m) != []
    ensures var wanted := Wanted(w, path, m);
      && KernelOpen(w, m, path).NoEnt? && wanted[0] in w.images
      && Missing(w, m, [], path, MAX_RESOLVE_STEPS) == Some(wanted[0])
      && Wanted(w, path, m + {wanted[0]}) == wanted[1..]
  {
    if KernelOpen(w, m, path) == Eager(w, path) {
      ThereAlready(w, m, path);
      WantedLast(w, m, path);
      GapIs(w, m, path);
    } else {
      StoppedShort(w, m, path);
      WantedNext(w, path, m, KernelOpen(w, m, path).at[|w.root|]);
    }
  }

  lemma WantedExists(w: World, m: set<string>, path: Path)
    requires Valid(w) && AllOrdinary(path) && Walkable(w, path) && m <= w.images.Keys && Wanted(w, path, m) != []
    ensures Wanted(w, path, m)[0] in w.images
  {
    FirstWanted(w, m, path);
  }

  /** Before a run that asks in order, the first store path wanted is asked for. */
  lemma AsksFirst(w: World, m: Mounts, path: Path, others: seq<Interference>, last: Outcome)
    requires Setting(w, m, path, w.images.Keys, others) && Alone(m, others) && others != [] && Walkable(w, path)
    requires Wanted(w, path, m.live) != []
    requires var next := m.With(Wanted(w, path, m.live)[0]);
      AskedInOrder(Lazy(w, next, path, w.images.Keys, others[1..]), Wanted(w, path, next.live), |others| - 1, last)
    ensures AskedInOrder(Lazy(w, m, path, w.images.Keys, others), Wanted(w, path, m.live), |others|, last)
  {
    FirstWanted(w, m.live, path);
    AsksThenRest(w, m, path, others, Wanted(w, path, m.live), last);
  }

  /** `Open` answers as the fully mounted namespace does, and asks for what that takes. */
  ghost predicate AsEager(w: World, m: Mounts, path: Path, others: seq<Interference>) {
    AskedInOrder(Lazy(w, m, path, w.images.Keys, others), Wanted(w, path, m.live), |others|, EagerOutcome(w, path))
  }

  lemma NoHopsLeft(w: World, m: Mounts, path: Path)
    ensures AsEager(w, m, path, [])
  {
  }

  lemma OneHopMore(w: World, m: Mounts, path: Path, others: seq<Interference>)
    requires Setting(w, m, path, w.images.Keys, others) && Alone(m, others) && others != [] && Walkable(w, path)
    requires Wanted(w, path, m.live) != [] ==> AsEager(w, m.With(Wanted(w, path, m.live)[0]), path, others[1..])
    ensures AsEager(w, m, path, others)
  {
    if Wanted(w, path, m.live) == [] {
      EndsAsEager(w, m, path, others);
    } else {
      AsksFirst(w, m, path, others, EagerOutcome(w, path));
    }
  }

  /** Lazy equals eager. When every fetch works and no other request interferes, `Open` asks for exactly the
      unmounted store paths the eager resolution passes through, in that order, each once, and answers as that
      resolution does - if and only if they are fewer than the hops it has; otherwise it gives up. */
  lemma {:induction false} LazyEqualsEager(w: World, m: Mounts, path: Path, others: seq<Interference>)
    requires Setting(w, m, path, w.images.Keys, others) && Alone(m, others) && Walkable(w, path)
    ensures AsEager(w, m, path, others)
    decreases |others|
  {
    if others == [] {
      NoHopsLeft(w, m, path);
    } else {
      if Wanted(w, path, m.live) != [] {
        var name := Wanted(w, path, m.live)[0];
        WantedExists(w, m.live, path);
        SettingAlone(w, m, path, others, name);
        LazyEqualsEager(w, m.With(name), path, others[1..]);
      }
      OneHopMore(w, m, path, others);
    }
  }

  lemma SettingAlone(w: World, m: Mounts, path: Path, others: seq<Interference>, name: string)
    requires Setting(w, m, path, w.images.Keys, others) && Alone(m, others) && others != [] && name in w.images
    ensures Setting(w, m.With(name), path, w.images.Keys, others[1..]) && Alone(m.With(name), others[1..])
  {
    var rest := others[1..];
    forall i | 0 <= i < |rest| ensures RealHop(w, rest[i]) && rest[i] == Interference([], []) {
      assert rest[i] == others[i + 1];
    }
  }

  lemma {:induction false} NeededShrinks(via: seq<string>, m: set<string>, m': set<string>)
    requires m <= m'
    ensures |Needed(via, m')| <= |Needed(via, m)|
    decreases |via|
  {
    if via == [] {
    } else {
      var more := if via[0] in m then m else m + {via[0]};
      var more' := if via[0] in m' then m' else m' + {via[0]};
      NeededShrinks(via[1..], more, more');
    }
  }

  lemma NeededOneLess(via: seq<string>, m: set<string>, n: string)
    requires n in via && n !in m
    ensures |Needed(via, m + {n})| < |Needed(via, m)|
    decreases |via|
  {
    if via[0] == n {
      assert m + {n} + {n} == m + {n};
    } else if via[0] in m {
      assert n in via[1..];
      NeededOneLess(via[1..], m, n);
    } else {
      assert n in via[1..];
      NeededOneLess(via[1..], m + {via[0]}, n);
      assert m + {n} + {via[0]} == m + {via[0]} + {n};
    }
  }

  /** A pass asks only for what is not listed and what the eager resolution enters. */
  lemma AskIsNeeded(w: World, m: Mounts, path: Path, fetchable: set<string>, other: Interference, name: string)
    requires Valid(w) && AllOrdinary(path) && Walkable(w, path) && fetchable <= w.images.Keys
    requires m.Sound(w) && RealHop(w, other) && OnePass(w, m, path, fetchable, other) == Mount(name)
    requires Eager(w, path).TooManyLinks? ==> Needed(EagerVia(w, path), Walking(w, m, path, other).seen.live) != []
    ensures name in w.images && name !in Walking(w, m, path, other).now.listed
    ensures name in EagerVia(w, path) || MisspeltEnd(w, path, name)
  {
    PassAtOnce(w, m, path, other);
    var seen := Walking(w, m, path, other).seen.live;
    var less := seen - {name};
    OpenFrame(w, less, path);
    GapIs(w, less, path);
    if Eager(w, path).TooManyLinks? {
      NeededShrinks(EagerVia(w, path), less, seen);
      Hop(w, less, path);
    }
    AskedIsNeeded(w, less, path);
  }

  /** At some hop the kernel stopped at a store path, and in the namespace of the walk's last lookup none was needed. */
  ghost predicate Overtaken(w: World, m: Mounts, path: Path, fetchable: set<string>, others: seq<Interference>)
    decreases |others|
  {
    others != [] &&
    var sight := Walking(w, m, path, others[0]);
    && Opening(w, m, path, others[0]).res.NoEnt?
    && (|| Needed(EagerVia(w, path), sight.seen.live) == []
        || (sight.gap.Some? && Ensured(sight.now, sight.gap.value, fetchable)
            && Overtaken(w, NextMounts(w, m, path, others[0], sight.gap.value), path, fetchable, others[1..])))
  }

  /** Other requests' mounts only help, unless they race: with every fetch working and fewer store paths of the way
      not yet listed than there are hops, the file is returned if and only if the request was not raced, and not-found
      is answered if it was. */
  lemma {:induction false} OthersOnlyHelp(w: World, m: Mounts, path: Path, others: seq<Interference>)
    requires Setting(w, m, path, w.images.Keys, others)
    requires Walkable(w, path) && Eager(w, path).Found?
    requires |Needed(EagerVia(w, path), m.listed)| < |others|
    ensures Lazy(w, m, path, w.images.Keys, others).outcome ==
              if Raced(w, m, path, w.images.Keys, others) then NotFound else Opened(Eager(w, path).at)
    decreases |others|
  {
    assert RealHop(w, others[0]);
    LazyUnfolds(w, m, path, w.images.Keys, others);
    OnePassExact(w, m, path, w.images.Keys, others[0]);
    var pass := OnePass(w, m, path, w.images.Keys, others[0]);
    if pass.Mount? {
      PassAtOnce(w, m, path, others[0]);
      AskIsNeeded(w, m, path, w.images.Keys, others[0], pass.name);
      var now := Walking(w, m, path, others[0]).now.listed;
      NeededShrinks(EagerVia(w, path), m.listed, now);
      NeededOneLess(EagerVia(w, path), now, pass.name);
      SettingNext(w, m, path, w.images.Keys, others, pass.name);
      OthersOnlyHelp(w, NextMounts(w, m, path, others[0], pass.name), path, others[1..]);
    }
  }

  /** Nothing asked for twice or when already listed, one store path a hop, and only what the eager resolution passes
      through - unless it ends at a store path spelled with capitals in its hash, whose canonical spelling it is. */
  ghost predicate Frugal(w: World, m: Mounts, path: Path, run: Run) {
    && run.hops == |run.asked|
    && (forall i, j :: 0 <= i < j < |run.asked| ==> run.asked[i] != run.asked[j])
    && (forall n :: n in run.asked ==> n !in m.listed && n in w.images)
    && (forall n :: n in run.asked ==> n in EagerVia(w, path) || MisspeltEnd(w, path, n))
  }

  lemma FrugalOneMore(w: World, m: Mounts, path: Path, name: string, next: Mounts, r: Run)
    requires Frugal(w, next, path, r) && m.listed <= next.listed && name in next.listed
    requires name !in m.listed && name in w.images && (name in EagerVia(w, path) || MisspeltEnd(w, path, name))
    ensures Frugal(w, m, path, Run(r.outcome, r.hops + 1, [name] + r.asked))
  {
    var asked := [name] + r.asked;
    forall i, j | 0 <= i < j < |asked| ensures asked[i] != asked[j] {
      assert asked[j] == r.asked[j - 1];
      assert i > 0 ==> asked[i] == r.asked[i - 1];
    }
  }

  lemma NotOvertaken(w: World, m: Mounts, path: Path, fetchable: set<string>, others: seq<Interference>, name: string)
    requires others != [] && OnePass(w, m, path, fetchable, others[0]) == Mount(name)
    requires !Overtaken(w, m, path, fetchable, others)
    ensures Needed(EagerVia(w, path), Walking(w, m, path, others[0]).seen.live) != []
    ensures !Overtaken(w, NextMounts(w, m, path, others[0], name), path, fetchable, others[1..])
  {
  }

  lemma FrugalHop(w: World, m: Mounts, path: Path, fetchable: set<string>, other: Interference, name: string, r: Run)
    requires Valid(w) && AllOrdinary(path) && Walkable(w, path) && fetchable <= w.images.Keys
    requires m.Sound(w) && RealHop(w, other) && OnePass(w, m, path, fetchable, other) == Mount(name)
    requires Eager(w, path).TooManyLinks? ==> Needed(EagerVia(w, path), Walking(w, m, path, other).seen.live) != []
    requires Frugal(w, NextMounts(w, m, path, other, name), path, r)
    ensures Frugal(w, m, path, Run(r.outcome, r.hops + 1, [name] + r.asked))
  {
    PassAtOnce(w, m, path, other);
    AskIsNeeded(w, m, path, fetchable, other, name);
    FrugalOneMore(w, m, path, name, NextMounts(w, m, path, other, name), r);
  }

  /** Whatever the interference, `Open` is frugal: nothing is fetched speculatively. */
  lemma {:induction false} NeverSpeculative(w: World, m: Mounts, path: Path, fetchable: set<string>,
          others: seq<Interference>)
    requires Setting(w, m, path, fetchable, others) && Walkable(w, path)
    requires Eager(w, path).TooManyLinks? ==> !Overtaken(w, m, path, fetchable, others)
    ensures var run := Lazy(w, m, path, fetchable, others); Frugal(w, m, path, run) && run.hops <= |others|
    decreases |others|
  {
    if others == [] {
    } else {
      assert RealHop(w, others[0]);
      LazyUnfolds(w, m, path, fetchable, others);
      var pass := OnePass(w, m, path, fetchable, others[0]);
      if pass.Mount? {
        var next := NextMounts(w, m, path, others[0], pass.name);
        if Eager(w, path).TooManyLinks? {
          NotOvertaken(w, m, path, fetchable, others, pass.name);
        }
        SettingNext(w, m, path, fetchable, others, pass.name);
        NeverSpeculative(w, next, path, fetchable, others[1..]);
        FrugalHop(w, m, path, fetchable, others[0], pass.name, Lazy(w, next, path, fetchable, others[1..]));
      }
    }
  }

  ghost predicate MisspeltEnd(w: World, path: Path, n: string) {
    var r := Eager(w, path);
    r.NoEnt? && StorePathOf(w, r.at) == Some(n) && r.at[|w.root|] != n
  }

  lemma AskedIsNeeded(w: World, m: set<string>, path: Path)
    requires Valid(w) && m <= w.images.Keys && KernelOpen(w, m, path).NoEnt?
    requires var gap := Unmounted(w, m, KernelOpen(w, m, path).at); gap.Some? && gap.value in w.images
    ensures var n := Unmounted(w, m, KernelOpen(w, m, path).at).value;
      n !in m && (n in EagerVia(w, path) || MisspeltEnd(w, path, n))
  {
    OpenFrame(w, m, path);
    var r := KernelOpen(w, m, path);
    var n := Unmounted(w, m, r.at).value;
    if Canonical(r.at[|w.root|]) {
      GapIsStuck(w, m, path);
      var via := Via(w, m, [], path, KERNEL_LINKS) + [n];
      assert via[|via| - 1] == n;
      MountedRootIsDir(w, w.images.Keys, r.at);
      if r == Eager(w, path) {
        NoEntIsAbsent(w, w.images.Keys, [], path, KERNEL_LINKS);
      }
    }
  }

  /** Others doing nothing for k looks. */
  function Quiet(k: nat): Others {
    seq(k, _ => Mounts({}, {}))
  }

  lemma QuietLook(m: Mounts, k: nat, more: Others)
    requires k > 0
    ensures Now(m, Quiet(k) + more) == m && Later(Quiet(k) + more) == Quiet(k - 1) + more
  {
    assert m.live + {} + {} == m.live && m.listed + {} == m.listed;
    assert (Quiet(k) + more)[0] == Mounts({}, {});
  }

  lemma QuietPlain(w: World, m: Mounts, k: nat, j: nat, more: Others, cur: Path, parts: seq<string>, fuel: nat,
          left: nat)
    requires k == j + 1 && parts != [] && fuel == left + 1
    requires IsDir(w, m.live, cur) && IsDir(w, m.live, cur + [parts[0]])
    ensures MissingBeside(w, m, Quiet(k) + more, cur, parts, fuel)
         == MissingBeside(w, m, Quiet(j) + more, cur + [parts[0]], parts[1..], left)
  {
    QuietLook(m, k, more);
    PassesBeside(w, m, Quiet(k) + more, cur, parts, fuel, left);
  }

  /** Directories all the way on from `cur`. */
  ghost predicate Chain(w: World, m: set<string>, cur: Path, ahead: Path)
    decreases |ahead|
  {
    ahead == []
    || (IsDir(w, m, cur) && IsDir(w, m, cur + [ahead[0]]) && Chain(w, m, cur + [ahead[0]], ahead[1..]))
  }

  lemma {:induction false} PhysicalIsChain(w: World, m: set<string>, root: Path, i: nat)
    requires Physical(w, m, root) && i <= |root|
    ensures Chain(w, m, root[..i], root[i..])
    decreases |root| - i
  {
    if i == |root| {
    } else {
      PhysicalIsChain(w, m, root, i + 1);
      assert root[..i] + [root[i]] == root[..i + 1] && root[i..][1..] == root[i + 1..];
    }
  }

  /** The answer from some place of the walk on. */
  ghost predicate Gives(w: World, m: Mounts, others: Others, cur: Path, parts: seq<string>, fuel: nat, sight: Sight) {
    MissingBeside(w, m, others, cur, parts, fuel) == sight
  }

  lemma AtTheEnd(w: World, m: Mounts, cur: Path, ahead: Path, more: Others, parts: seq<string>, fuel: nat, sight: Sight)
    requires ahead == [] && Gives(w, m, more, cur + ahead, parts, fuel, sight)
    ensures Gives(w, m, Quiet(0) + more, cur, ahead + parts, fuel, sight)
  {
    assert cur + ahead == cur && ahead + parts == parts && Quiet(0) + more == more;
  }

  lemma DownOne(w: World, m: Mounts, cur: Path, ahead: Path, more: Others, parts: seq<string>, fuel: nat, left: nat,
          sight: Sight)
    requires ahead != [] && IsDir(w, m.live, cur) && IsDir(w, m.live, cur + [ahead[0]]) && fuel == left + 1
    requires Gives(w, m, Quiet(|ahead[1..]|) + more, cur + [ahead[0]], ahead[1..] + parts, left, sight)
    ensures Gives(w, m, Quiet(|ahead|) + more, cur, ahead + parts, fuel, sight)
  {
    var all := ahead + parts;
    assert all[0] == ahead[0] && all[1..] == ahead[1..] + parts;
    QuietPlain(w, m, |ahead|, |ahead[1..]|, more, cur, all, fuel, left);
  }

  lemma NextOfChain(cur: Path, ahead: Path)
    requires ahead != []
    ensures cur + [ahead[0]] + ahead[1..] == cur + ahead
  {
  }

  /** The walk goes down a chain, one look a component, while nobody else does anything. */
  lemma {:induction false} DownTheChain(w: World, m: Mounts, cur: Path, ahead: Path, end: Path, more: Others,
          parts: seq<string>, fuel: nat, all: nat, sight: Sight)
    requires Chain(w, m.live, cur, ahead) && cur + ahead == end && all == |ahead| + fuel
    requires Gives(w, m, more, end, parts, fuel, sight)
    ensures Gives(w, m, Quiet(|ahead|) + more, cur, ahead + parts, all, sight)
    decreases |ahead|
  {
    if ahead == [] {
      AtTheEnd(w, m, cur, ahead, more, parts, fuel, sight);
    } else {
      var left := all - 1;
      NextOfChain(cur, ahead);
      DownTheChain(w, m, cur + [ahead[0]], ahead[1..], end, more, parts, fuel, left, sight);
      DownOne(w, m, cur, ahead, more, parts, all, left, sight);
    }
  }

  lemma RootIsChain(w: World, m: set<string>)
    requires Physical(w, m, w.root)
    ensures Chain(w, m, [], w.root) && [] + w.root == w.root
  {
    PhysicalIsChain(w, m, w.root, 0);
    assert w.root[..0] == [] && w.root[0..] == w.root;
  }

  /** The first race: another request mounts the very store path that is asked for, between the failed
      open and the walk. `Open` answers not-found, although the path resolves - in the fully mounted
      namespace and already in this one. */
  lemma RaceAnswersNotFound(w: World, m: Mounts, name: string, fetchable: set<string>, others: seq<Interference>)
    requires Valid(w) && m.Sound(w) && name in w.images && name !in m.live && |w.root| < MAX_RESOLVE_STEPS
    requires |others| > 0 && others[0] == Interference([], [Mounts({}, {name})] + Quiet(|w.root|))
    ensures var path := w.root + [name];
      && Raced(w, m, path, fetchable, others)
      && Lazy(w, m, path, fetchable, others).outcome == NotFound
      && KernelOpen(w, m.live + {name}, path) == Found(path) == Eager(w, path)
  {
    var path := w.root + [name];
    AskForStorePath(w, m.live, name);
    AskForStorePath(w, m.live + {name}, name);
    AskForStorePath(w, w.images.Keys, name);
    RaceNeeds(w, m.live, name);
    StillWalk(w, m, [], path, KERNEL_LINKS);
    RacedWalk(w, m, name);
    KeptUp(w, m, others[0].walking, [], path, MAX_RESOLVE_STEPS);
    LazyUnfolds(w, m, path, fetchable, others);
  }

  lemma RacedWalk(w: World, m: Mounts, name: string)
    requires Valid(w) && name in w.images && |w.root| < MAX_RESOLVE_STEPS
    ensures var sight := MissingBeside(w, m, [Mounts({}, {name})] + Quiet(|w.root|), [], w.root + [name],
        MAX_RESOLVE_STEPS);
      sight.gap == None && sight.seen.live == m.live + {name}
  {
    var m' := m.Grown(Mounts({}, {name}));
    assert m'.live == m.live + {name};
    RootIsDir(w, m'.live);
    NameIsItsRoot(w, m'.live, name);
    GrownFirst(w, m, Mounts({}, {name}), Quiet(|w.root|), [], w.root + [name], MAX_RESOLVE_STEPS);
    MountedWalk(w, m', name, MAX_RESOLVE_STEPS - |w.root|);
    assert Gives(w, m', [Mounts({}, {})] + Quiet(|w.root|), [], w.root + [name], MAX_RESOLVE_STEPS,
      Sight(None, m', m'));
  }

  lemma QuietFirst(k: nat)
    ensures [Mounts({}, {})] + Quiet(k) == Quiet(k) + Quiet(1)
  {
    var a, b := [Mounts({}, {})] + Quiet(k), Quiet(k) + Quiet(1);
    forall i | 0 <= i < k + 1 ensures a[i] == Mounts({}, {}) == b[i] {
      assert i < k ==> b[i] == Quiet(k)[i];
    }
  }

  lemma MountedLook(w: World, m: Mounts, name: string, fuel: nat)
    requires IsDir(w, m.live, w.root) && IsDir(w, m.live, w.root + [name]) && fuel > 0
    ensures Gives(w, m, Quiet(1), w.root, [name], fuel, Sight(None, m, m))
  {
    assert Quiet(1) + [] == Quiet(1) && [name][1..] == [];
    QuietPlain(w, m, 1, 0, [], w.root, [name], fuel, fuel - 1);
  }

  lemma MountedWalk(w: World, m: Mounts, name: string, fuel: nat)
    requires Physical(w, m.live, w.root) && IsDir(w, m.live, w.root + [name]) && fuel > 0
    ensures Gives(w, m, [Mounts({}, {})] + Quiet(|w.root|), [], w.root + [name], |w.root| + fuel, Sight(None, m, m))
  {
    assert w.root[..|w.root|] == w.root;
    MountedLook(w, m, name, fuel);
    RootIsChain(w, m.live);
    DownTheChain(w, m, [], w.root, w.root, Quiet(1), [name], fuel, |w.root| + fuel, Sight(None, m, m));
    QuietFirst(|w.root|);
  }

  /** What others did before the first look is what there was from the start. */
  lemma GrownFirst(w: World, m: Mounts, more: Mounts, rest: Others, cur: Path, parts: seq<string>, fuel: nat)
    requires parts != [] && fuel > 0
    ensures MissingBeside(w, m, [more] + rest, cur, parts, fuel)
         == MissingBeside(w, m.Grown(more), [Mounts({}, {})] + rest, cur, parts, fuel)
  {
    var m' := m.Grown(more);
    assert m'.live + {} + {} == m'.live && m'.listed + {} == m'.listed;
    assert Now(m, [more] + rest) == m' == Now(m', [Mounts({}, {})] + rest);
    assert Later([more] + rest) == rest == Later([Mounts({}, {})] + rest);
    PassesBeside(w, m, [more] + rest, cur, parts, fuel, fuel - 1);
    PassesBeside(w, m', [Mounts({}, {})] + rest, cur, parts, fuel, fuel - 1);
  }

  /** The second race: a path straight into a store path, which another request mounts between the lookup that fails and
      the look into the table. `Open` answers not-found for a path that resolves, however much of it is still needed. */
  lemma LateTableAnswersNotFound(w: World, m: Mounts, name: string, tail: seq<string>, fetchable: set<string>,
          others: seq<Interference>)
    requires Valid(w) && m.Sound(w) && name in w.images && name !in m.live && |w.root| < MAX_RESOLVE_STEPS
    requires Eager(w, w.root + [name] + tail).Found?
    requires |others| > 0 && others[0] == Interference([], Quiet(|w.root| + 1) + [Mounts({}, {name})])
    ensures var path := w.root + [name] + tail;
      && Raced(w, m, path, fetchable, others)
      && Lazy(w, m, path, fetchable, others).outcome == NotFound
      && Needed(EagerVia(w, path), m.live) == [name] + Needed(EagerVia(w, path), m.live + {name})
  {
    var path := w.root + [name] + tail;
    StillWalk(w, m, [], path, KERNEL_LINKS);
    StraightIn(w, m.live, name, tail);
    LateWalk(w, m, name, tail);
    KeptUp(w, m, others[0].walking, [], path, MAX_RESOLVE_STEPS);
    LazyUnfolds(w, m, path, fetchable, others);
  }

  function LateSight(m: Mounts, name: string): Sight {
    Sight(None, m, m.Grown(Mounts({}, {name})))
  }

  lemma LateWalk(w: World, m: Mounts, name: string, tail: seq<string>)
    requires Valid(w) && name in w.images && name !in m.live && |w.root| < MAX_RESOLVE_STEPS
    ensures Gives(w, m, Quiet(|w.root| + 1) + [Mounts({}, {name})], [], w.root + [name] + tail, MAX_RESOLVE_STEPS,
        LateSight(m, name))
  {
    RootIsDir(w, m.live);
    assert w.images[name][[]] == Dir && Canonical(name);
    NameIsItsRoot(w, m.live, name);
    LateLook(w, m, name, [name] + tail, MAX_RESOLVE_STEPS - |w.root|);
    RootIsChain(w, m.live);
    DownTheChain(w, m, [], w.root, w.root, Quiet(1) + [Mounts({}, {name})], [name] + tail,
                 MAX_RESOLVE_STEPS - |w.root|, MAX_RESOLVE_STEPS, LateSight(m, name));
    LateIs(w, name, tail);
  }

  lemma LateIs(w: World, name: string, tail: seq<string>)
    ensures var late := [Mounts({}, {name})];
      && Quiet(|w.root| + 1) + late == Quiet(|w.root|) + (Quiet(1) + late)
      && w.root + [name] + tail == w.root + ([name] + tail)
  {
  }

  lemma LateLook(w: World, m: Mounts, name: string, parts: seq<string>, fuel: nat)
    requires Canonical(name) && parts != [] && parts[0] == name && fuel > 0
    requires Lstat(w, m.live, w.root + [name]) == None
    ensures Gives(w, m, Quiet(1) + [Mounts({}, {name})], w.root, parts, fuel, LateSight(m, name))
  {
    var late := [Mounts({}, {name})];
    QuietLook(m, 1, late);
    assert Quiet(0) + late == late;
    var next := w.root + [name];
    assert next[..|w.root|] == w.root && next[|w.root|] == name;
    PassesBeside(w, m, Quiet(1) + late, w.root, parts, fuel, fuel - 1);
  }

  /** The kernel's way to it is through no other store path. */
  lemma StraightIn(w: World, m: set<string>, name: string, tail: seq<string>)
    requires Valid(w) && m <= w.images.Keys && name in w.images && name !in m
    requires Eager(w, w.root + [name] + tail).Found?
    ensures var path := w.root + [name] + tail;
      && KernelOpen(w, m, path) == NoEnt(w.root + [name])
      && Needed(EagerVia(w, path), m) == [name] + Needed(EagerVia(w, path), m + {name})
  {
    var path, parts := w.root + [name] + tail, [name] + tail;
    RootIsDir(w, m);
    assert path == w.root + parts;
    WalkFromTop(w, m, w.root, parts, KERNEL_LINKS);
    NameIsItsRoot(w, m, name);
    StoreNameIsOrdinary(name);
    assert w.root[..|w.root|] == w.root;
    OpenFrame(w, m, path);
    ViaIsMounted(w, m, [], path, KERNEL_LINKS);
    var next := w.root + [name];
    assert next[|w.root|] == name;
    NeededNext(EagerVia(w, path), Via(w, m, [], path, KERNEL_LINKS), name, m);
  }

  /** The store path asked for is all that is needed. */
  lemma RaceNeeds(w: World, m: set<string>, name: string)
    requires Valid(w) && m <= w.images.Keys && name in w.images && name !in m
    ensures var via := EagerVia(w, w.root + [name]); Needed(via, m) != [] && Needed(via, m + {name}) == []
  {
    var path := w.root + [name];
    AskForStorePath(w, m, name);
    AskForStorePath(w, m + {name}, name);
    AskForStorePath(w, w.images.Keys, name);
    OpenFrame(w, m, path);
    OpenFrame(w, m + {name}, path);
    ViaIsMounted(w, m, [], path, KERNEL_LINKS);
    ViaIsMounted(w, m + {name}, [], path, KERNEL_LINKS);
    var r := KernelOpen(w, m, path);
    NeededNext(EagerVia(w, path), Via(w, m, [], path, KERNEL_LINKS), r.at[|w.root|], m);
    NothingNeeded(EagerVia(w, path), m + {name});
  }

  /** There is no link on the way to a store path. */
  lemma PlainRootLeads(w: World, m: set<string>, name: string, links: nat)
    requires Valid(w) && name in w.images
    ensures DotsLeadOn(w, m, [], w.root + [name], links)
  {
    RootIsDir(w, m);
    NameIsNoLink(w, m, name);
    assert [name][0] == name && [name][1..] == [];
    assert DotsLeadOn(w, m, w.root, [name], links);
    Redots(w, m, w.root, 0, [name], links);
    assert w.root[..0] == [] && w.root[0..] == w.root;
  }

  lemma NameIsNoLink(w: World, m: set<string>, name: string)
    requires Valid(w) && name in w.images
    ensures var node := Lstat(w, m, w.root + [name]); node.Some? ==> node == Some(Dir)
  {
    assert w.images[name][[]] == Dir && Canonical(name);
    NameIsItsRoot(w, m, name);
  }

  lemma NameIsItsRoot(w: World, m: set<string>, name: string)
    requires Canonical(name) && name in w.images && [] in w.images[name]
    ensures Lstat(w, m, w.root + [name]) == if name in m then Some(w.images[name][[]]) else None
  {
    var p := w.root + [name];
    assert p[..|w.root|] == w.root && p[|w.root|] == name && p[|w.root| + 1..] == [];
  }

  /** A store path's own name resolves exactly when it is mounted. */
  lemma AskForStorePath(w: World, m: set<string>, name: string)
    requires Valid(w) && name in w.images
    ensures var path := w.root + [name];
      KernelOpen(w, m, path) == if name in m then Found(path) else NoEnt(path)
  {
    var path := w.root + [name];
    RootIsDir(w, m);
    Rewalk(w, m, w.root, 0, [name], KERNEL_LINKS);
    assert w.root[..0] == [] && w.root[0..] == w.root;
    assert w.root[..|w.root|] == w.root && path[..|w.root|] == w.root;
    if name in m {
      MountedRootIsDir(w, m, path);
    }
    assert [name][1..] == [];
  }

  /** The promises of `Open`, for the run it makes. */
  ghost predicate OpenPromises(w: World, m: Mounts, path: Path, fetchable: set<string>, others: seq<Interference>,
          run: Run) {
    var eager, raced := Eager(w, path), Raced(w, m, path, fetchable, others);
    var need := Needed(EagerVia(w, path), m.listed);
    && (run.outcome.Opened? ==> eager == Found(run.outcome.at))
    && (run.outcome.Refused? ==> eager == run.outcome.why)
    && (run.outcome.NotFound? ==> eager.NoEnt? || raced)
    && (eager.Found? && raced ==> run.outcome.NotFound?)
    && (fetchable == w.images.Keys && eager.Found? && |need| < |others| ==>
          run.outcome == if raced then NotFound else Opened(eager.at))
    && (Alone(m, others) && fetchable == w.images.Keys ==>
          AskedInOrder(run, Wanted(w, path, m.live), |others|, EagerOutcome(w, path)))
  }

  lemma OpenKeepsPromises(w: World, m: Mounts, path: Path, fetchable: set<string>, others: seq<Interference>)
    requires Setting(w, m, path, fetchable, others) && Walkable(w, path)
    ensures OpenPromises(w, m, path, fetchable, others, Lazy(w, m, path, fetchable, others))
  {
    AnswersAreEager(w, m, path, fetchable, others);
    NotFoundIsRight(w, m, path, fetchable, others);
    if fetchable == w.images.Keys && Eager(w, path).Found? {
      if |Needed(EagerVia(w, path), m.listed)| < |others| {
        OthersOnlyHelp(w, m, path, others);
      }
    }
    if fetchable == w.images.Keys && Alone(m, others) {
      LazyEqualsEager(w, m, path, others);
    }
  }

  /** The store: its mounts are its state. */
  class Store {
    const w: World
    var mounts: Mounts

    constructor (w: World)
      ensures this.w == w && mounts == Mounts({}, {})
    {
      this.w := w;
      mounts := Mounts({}, {});
    }

    /** Other requests' turn, before a look at the mounts. */
    method Yield(others: Others) returns (rest: Others)
      modifies this
      ensures mounts == Now(old(mounts), others) && rest == Later(others)
    {
      rest := others;
      if others != [] {
        mounts, rest := mounts.Grown(others[0]), others[1..];
      }
    }

    /** Which store path is absent; None when nothing a mount could supply is missing. Others mount meanwhile. */
    method MissingFor(path: Path, others: Others) returns (missing: Option<string>)
      modifies this
      ensures var sight := MissingBeside(w, old(mounts), others, [], path, 256);
        missing == sight.gap && mounts == sight.now
    {
      ghost var sight := MissingBeside(w, mounts, others, [], path, MAX_RESOLVE_STEPS);
      var parts, cur: Path := path, [];
      var rest := others;
      var steps := 0;
      while steps < MAX_RESOLVE_STEPS
        invariant 0 <= steps <= MAX_RESOLVE_STEPS
        invariant sight == MissingBeside(w, mounts, rest, cur, parts, MAX_RESOLVE_STEPS - steps)
      {
        if parts == [] {
          return None;
        }
        PassesBeside(w, mounts, rest, cur, parts, MAX_RESOLVE_STEPS - steps, MAX_RESOLVE_STEPS - steps - 1);
        rest := Yield(rest);
        var node := Child(w, mounts.live, cur, parts[0]);
        if node == None {
          rest := Yield(rest);
          return Unmounted(w, mounts.listed, cur + [parts[0]]);
        }
        if node.value.Link? {
          var t := node.value.target;
          var spliced := Splice(cur, t);
          rest := Yield(rest);
          var sp := Unmounted(w, mounts.listed, Aim(cur, t));
          if sp.Some? {
            return sp;
          }
          parts, cur := spliced + parts[1..], [];
        } else {
          cur, parts := cur + [parts[0]], parts[1..];
        }
        steps := steps + 1;
      }
      return None;
    }

    /** Makes a store path readable at its canonical location: a no-op when it is listed, and a wait when another
        request is mounting it. */
    method Ensure(name: string, fetchable: set<string>) returns (ok: bool)
      modifies this
      ensures ok == (name in old(mounts).listed || Ensured(old(mounts), name, fetchable))
      ensures mounts == if ok && name !in old(mounts).listed then old(mounts).With(name) else old(mounts)
    {
      if name in mounts.listed {
        return true;
      }
      ok := name in mounts.live || name in fetchable;
      if ok {
        mounts := mounts.With(name);
      }
    }

    /** One pass of `Open`'s loop, beside what other requests do meanwhile. */
    method Hop(path: Path, fetchable: set<string>, other: Interference) returns (pass: Pass)
      modifies this
      ensures pass == OnePass(w, old(mounts), path, fetchable, other)
      ensures var look, sight := Opening(w, old(mounts), path, other), Walking(w, old(mounts), path, other);
        mounts == if pass.Mount? then sight.now.With(pass.name) else if look.res.NoEnt? then sight.now else look.seen
    {
      ghost var m := mounts;
      var look := WalkBeside(w, mounts, other.opening, [], path, KERNEL_LINKS);
      mounts := look.seen;
      if look.res.Found? {
        return Done(Opened(look.res.at));
      }
      if !look.res.NoEnt? {
        return Done(Refused(look.res));
      }
      var missing := MissingFor(path, other.walking);
      if missing == None {
        return Done(NotFound);
      }
      MissingIsUnmounted(w, look.seen, other.walking, [], path, MAX_RESOLVE_STEPS);
      var ok := Ensure(missing.value, fetchable);
      return if ok then Mount(missing.value) else Done(EnsureFailed(missing.value));
    }

    /** `others[h]` is what other requests do during hop h. */
    method Open(path: Path, fetchable: set<string>, others: seq<Interference>)
      returns (outcome: Outcome, hops: nat, ghost asked: seq<string>)
      requires |others| == 16
      modifies this
      ensures Run(outcome, hops, asked) == Lazy(w, old(mounts), path, fetchable, others)
      ensures old(mounts).listed <= mounts.listed && forall n :: n in asked ==> n in mounts.listed
      ensures Setting(w, old(mounts), path, fetchable, others) && Walkable(w, path)
        ==> OpenPromises(w, old(mounts), path, fetchable, others, Run(outcome, hops, asked))
    {
      ghost var m := mounts;
      outcome, hops, asked := Loop(path, fetchable, others);
      if Setting(w, m, path, fetchable, others) && Walkable(w, path) {
        OpenKeepsPromises(w, m, path, fetchable, others);
      }
    }

    method Loop(path: Path, fetchable: set<string>, others: seq<Interference>)
      returns (outcome: Outcome, hops: nat, ghost asked: seq<string>)
      requires |others| == 16
      modifies this
      ensures Run(outcome, hops, asked) == Lazy(w, old(mounts), path, fetchable, others)
      ensures old(mounts).listed <= mounts.listed && forall n :: n in asked ==> n in mounts.listed
    {
      ghost var whole := Lazy(w, mounts, path, fetchable, others);
      assert others[0..] == others;
      asked := [];
      hops := 0;
      while hops < MAX_RESOLVE_HOPS
        invariant 0 <= hops <= MAX_RESOLVE_HOPS && |asked| == hops
        invariant old(mounts).listed <= mounts.listed && forall n :: n in asked ==> n in mounts.listed
        invariant Resumes(whole, hops, asked, Lazy(w, mounts, path, fetchable, others[hops..]))
      {
        assert others[hops..][0] == others[hops] && others[hops..][1..] == others[hops + 1..];
        ghost var m := mounts;
        LazyUnfolds(w, m, path, fetchable, others[hops..]);
        PassOnlyAdds(w, m, path, others[hops]);
        var pass := Hop(path, fetchable, others[hops]);
        if pass.Done? {
          return pass.outcome, hops, asked;
        }
        ResumesOn(whole, hops, asked, Lazy(w, mounts, path, fetchable, others[hops + 1..]), pass.name);
        asked := asked + [pass.name];
        hops := hops + 1;
      }
      return GaveUp, MAX_RESOLVE_HOPS, asked;
    }
  }

  lemma {:induction false} OpenOnlyAdds(w: World, m: Mounts, others: Others, cur: Path, parts: seq<string>, links: nat)
    ensures m.Within(WalkBeside(w, m, others, cur, parts, links).seen)
    decreases links, |parts|
  {
    var now, rest := Now(m, others), Later(others);
    if parts == [] || !IsDir(w, now.live, cur) {
    } else if parts[0] == ".." {
      OpenOnlyAdds(w, now, rest, Parent(cur), parts[1..], links);
    } else if Lstat(w, now.live, cur + [parts[0]]).Some? {
      var node := Lstat(w, now.live, cur + [parts[0]]).value;
      if !node.Link? {
        OpenOnlyAdds(w, now, rest, cur + [parts[0]], parts[1..], links);
      } else if links > 0 {
        OpenOnlyAdds(w, now, rest, if node.target.absolute then [] else cur, node.target.parts + parts[1..], links - 1);
      }
    }
  }

  lemma {:induction false} MissingOnlyAdds(w: World, m: Mounts, others: Others, cur: Path, parts: seq<string>,
          fuel: nat)
    ensures m.Within(MissingBeside(w, m, others, cur, parts, fuel).now)
    decreases fuel
  {
    if fuel == 0 || parts == [] {
    } else {
      PassesBeside(w, m, others, cur, parts, fuel, fuel - 1);
      var seen := Now(m, others);
      var now, rest := Now(seen, Later(others)), Later(Later(others));
      match Child(w, seen.live, cur, parts[0])
      case None =>
      case Some(Link(t)) => MissingOnlyAdds(w, now, rest, [], Splice(cur, t) + parts[1..], fuel - 1);
      case Some(_) => MissingOnlyAdds(w, seen, Later(others), cur + [parts[0]], parts[1..], fuel - 1);
    }
  }

  lemma PassOnlyAdds(w: World, m: Mounts, path: Path, other: Interference)
    ensures m.Within(Opening(w, m, path, other).seen) && m.Within(Walking(w, m, path, other).now)
  {
    OpenOnlyAdds(w, m, other.opening, [], path, KERNEL_LINKS);
    MissingOnlyAdds(w, Opening(w, m, path, other).seen, other.walking, [], path, MAX_RESOLVE_STEPS);
  }
}
