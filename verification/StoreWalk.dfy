/** `missingFor`: the walk that answers which store path a failed open was missing. */
module StoreWalk {
  import opened Namespace
  import opened Options
  import opened Paths
  import opened StoreNames

  const MAX_RESOLVE_STEPS := 256
  const KERNEL_LINKS := 40

  /** What `filepath.Join` makes of a link target met in the directory `cur`. */
  function Splice(cur: Path, t: PathName): Path {
    Clean(true, if t.absolute then [] else cur, t.parts)
  }

  /** Where a link met in `cur` points, as `missingFor` first looks at it: not yet cleaned when absolute. */
  function Aim(cur: Path, t: PathName): Path {
    if t.absolute then t.parts else Splice(cur, t)
  }

  /** `next` as the walk sees it: nothing exists below something that is not a directory. */
  function Child(w: World, mounted: set<string>, cur: Path, c: string): Option<Node> {
    if IsDir(w, mounted, cur) then Lstat(w, mounted, cur + [c]) else None
  }

  function Unmounted(w: World, mounted: set<string>, p: Path): Option<string> {
    match StorePathOf(w, p)
    case Some(name) => if name in mounted then None else Some(name)
    case None => None
  }

  /** The loop of `missingFor` from one of its states, with `fuel` passes left. */
  function Missing(w: World, mounted: set<string>, cur: Path, parts: seq<string>, fuel: nat): Option<string>
    decreases fuel
  {
    if fuel == 0 || parts == [] then None
    else match Child(w, mounted, cur, parts[0])
      case None => Unmounted(w, mounted, cur + [parts[0]])
      case Some(Link(t)) =>
        var target := Aim(cur, t);
        if Unmounted(w, mounted, target).Some? then Unmounted(w, mounted, target)
        else Missing(w, mounted, [], Splice(cur, t) + parts[1..], fuel - 1)
      case Some(_) => Missing(w, mounted, cur + [parts[0]], parts[1..], fuel - 1)
  }

  /** What `missingFor` found: its answer, the mounts at its last lookup, and those at its end. */
  datatype Sight = Sight(gap: Option<string>, seen: Mounts, now: Mounts)

  /** `missingFor` while others mount: each lookup and each look into the mount table sees what is there by then. */
  function MissingBeside(w: World, m: Mounts, others: Others, cur: Path, parts: seq<string>, fuel: nat): Sight
    decreases fuel
  {
    if fuel == 0 || parts == [] then Sight(None, m, m)
    else
      var seen := Now(m, others);
      var now, rest := Now(seen, Later(others)), Later(Later(others));
      match Child(w, seen.live, cur, parts[0])
      case None => Sight(Unmounted(w, now.listed, cur + [parts[0]]), seen, now)
      case Some(Link(t)) =>
        var gap := Unmounted(w, now.listed, Aim(cur, t));
        if gap.Some? then Sight(gap, now, now)
        else MissingBeside(w, now, rest, [], Splice(cur, t) + parts[1..], fuel - 1)
      case Some(_) => MissingBeside(w, seen, Later(others), cur + [parts[0]], parts[1..], fuel - 1)
  }

  /** One pass of the loop; `left` is what it leaves of the fuel. */
  lemma PassesBeside(w: World, m: Mounts, others: Others, cur: Path, parts: seq<string>, fuel: nat,
          left: nat)
    requires fuel == left + 1 && parts != []
    ensures var sight := MissingBeside(w, m, others, cur, parts, fuel);
      var seen := Now(m, others);
      var now, rest := Now(seen, Later(others)), Later(Later(others));
      var node := Child(w, seen.live, cur, parts[0]);
      && (node == None ==> sight == Sight(Unmounted(w, now.listed, cur + [parts[0]]), seen, now))
      && (node.Some? && !node.value.Link? ==>
            sight == MissingBeside(w, seen, Later(others), cur + [parts[0]], parts[1..], left))
      && (node.Some? && node.value.Link? ==>
            var t := node.value.target;
            var gap := Unmounted(w, now.listed, Aim(cur, t));
            sight == if gap.Some? then Sight(gap, now, now)
                     else MissingBeside(w, now, rest, [], Splice(cur, t) + parts[1..], left))
  {
  }

  /** The store path that `p` leads into is in the table by now, if it was there to be seen. */
  predicate CaughtUp(w: World, seen: Mounts, now: Mounts, p: Path) {
    match StorePathOf(w, p)
    case Some(name) => name in seen.live ==> name in now.listed
    case None => true
  }

  /** Whenever the walk asks the table about a store path, the table has caught up with the mounts as to that one. */
  predicate KeepsUp(w: World, m: Mounts, others: Others, cur: Path, parts: seq<string>, fuel: nat)
    decreases fuel
  {
    fuel == 0 || parts == [] ||
    var seen := Now(m, others);
    var now, rest := Now(seen, Later(others)), Later(Later(others));
    match Child(w, seen.live, cur, parts[0])
    case None => CaughtUp(w, seen, now, cur + [parts[0]])
    case Some(Link(t)) =>
      && CaughtUp(w, now, now, Aim(cur, t))
      && (Unmounted(w, now.listed, Aim(cur, t)).Some?
          || KeepsUp(w, now, rest, [], Splice(cur, t) + parts[1..], fuel - 1))
    case Some(_) => KeepsUp(w, seen, Later(others), cur + [parts[0]], parts[1..], fuel - 1)
  }

  lemma MissingSteps(w: World, mounted: set<string>, cur: Path, parts: seq<string>, fuel: nat)
    requires fuel > 0 && parts != []
    ensures var node, gap := Child(w, mounted, cur, parts[0]), Missing(w, mounted, cur, parts, fuel);
      && (node == None ==> gap == Unmounted(w, mounted, cur + [parts[0]]))
      && (node.Some? && !node.value.Link? ==> gap == Missing(w, mounted, cur + [parts[0]], parts[1..], fuel - 1))
      && (node.Some? && node.value.Link? ==>
            var t := node.value.target;
            var sp := Unmounted(w, mounted, Aim(cur, t));
            gap == if sp.Some? then sp else Missing(w, mounted, [], Splice(cur, t) + parts[1..], fuel - 1))
  {
  }

  /** What `missingFor` names is not in the table when it says so. */
  lemma {:induction false} MissingIsUnmounted(w: World, m: Mounts, others: Others, cur: Path, parts: seq<string>,
          fuel: nat)
    ensures var sight := MissingBeside(w, m, others, cur, parts, fuel);
      sight.gap.Some? ==> sight.gap.value !in sight.now.listed
    decreases fuel
  {
    if fuel == 0 || parts == [] {
    } else {
      var left := fuel - 1;
      PassesBeside(w, m, others, cur, parts, fuel, left);
      var seen := Now(m, others);
      var now, rest := Now(seen, Later(others)), Later(Later(others));
      match Child(w, seen.live, cur, parts[0])
      case None =>
      case Some(Link(t)) => MissingIsUnmounted(w, now, rest, [], Splice(cur, t) + parts[1..], left);
      case Some(_) => MissingIsUnmounted(w, seen, Later(others), cur + [parts[0]], parts[1..], left);
    }
  }

  datatype Scanned = Scanned(res: Resolution, steps: nat)

  /** Resolution the way `missingFor` does it: a link's target is cleaned lexically, spliced in
      front of the rest, and walked again from the top. `steps` counts the components visited. */
  function Scan(w: World, mounted: set<string>, cur: Path, parts: seq<string>, links: nat): Scanned
    decreases links, |parts|
  {
    if parts == [] then Scanned(Found(cur), 0)
    else if !IsDir(w, mounted, cur) then Scanned(NotDir(cur), 1)
    else
      var next := cur + [parts[0]];
      match Lstat(w, mounted, next)
      case None => Scanned(NoEnt(next), 1)
      case Some(Link(t)) =>
        if links == 0 then Scanned(TooManyLinks, 1)
        else var s := Scan(w, mounted, [], Splice(cur, t) + parts[1..], links - 1); s.(steps := s.steps + 1)
      case Some(_) =>
        var s := Scan(w, mounted, next, parts[1..], links); s.(steps := s.steps + 1)
  }

  /** Every link that the resolution meets and follows has its ".." in front. */
  ghost predicate DotsLeadOn(w: World, mounted: set<string>, cur: Path, parts: seq<string>, links: nat)
    decreases links, |parts|
  {
    parts == [] || !IsDir(w, mounted, cur) ||
    match Lstat(w, mounted, cur + [parts[0]])
    case None => true
    case Some(Link(t)) =>
      links == 0 || (DotsLead(t.parts) && DotsLeadOn(w, mounted, [], Splice(cur, t) + parts[1..], links - 1))
    case Some(_) => DotsLeadOn(w, mounted, cur + [parts[0]], parts[1..], links)
  }

  /** A physical path, or a file standing in a physical directory. */
  ghost predicate Reached(w: World, m: set<string>, cur: Path) {
    && AllOrdinary(cur)
    && Lstat(w, m, cur).Some? && !Lstat(w, m, cur).value.Link?
    && (IsDir(w, m, cur) ==> Physical(w, m, cur))
  }

  lemma ReachedNext(w: World, m: set<string>, cur: Path, c: string)
    requires Physical(w, m, cur) && Ordinary(c)
    requires Lstat(w, m, cur + [c]).Some? && !Lstat(w, m, cur + [c]).value.Link?
    ensures Reached(w, m, cur + [c])
  {
    var next := cur + [c];
    forall i | 0 <= i <= |next| && IsDir(w, m, next) ensures IsDir(w, m, next[..i]) {
      if i <= |cur| {
        assert next[..i] == cur[..i];
      } else {
        assert next[..i] == next;
      }
    }
  }

  lemma ReachedRoot(w: World, m: set<string>)
    requires Valid(w)
    ensures Reached(w, m, []) && Physical(w, m, [])
  {
    RootIsDir(w, m);
  }

  /** Walking a physical directory from the top comes back to it. */
  lemma {:induction false} Rewalk(w: World, m: set<string>, cur: Path, i: nat, rest: seq<string>, links: nat)
    requires Physical(w, m, cur) && i <= |cur|
    ensures Walk(w, m, cur[..i], cur[i..] + rest, links) == Walk(w, m, cur, rest, links)
    decreases |cur| - i
  {
    if i == |cur| {
      assert cur[..i] == cur && cur[i..] + rest == rest;
    } else {
      RewalkStep(cur, i, rest);
      Rewalk(w, m, cur, i + 1, rest, links);
    }
  }

  lemma {:induction false} Rescan(w: World, m: set<string>, cur: Path, i: nat, rest: seq<string>, links: nat)
    requires Physical(w, m, cur) && i <= |cur|
    ensures Scan(w, m, cur[..i], cur[i..] + rest, links).res == Scan(w, m, cur, rest, links).res
    decreases |cur| - i
  {
    if i == |cur| {
      assert cur[..i] == cur && cur[i..] + rest == rest;
    } else {
      RewalkStep(cur, i, rest);
      Rescan(w, m, cur, i + 1, rest, links);
    }
  }

  lemma {:induction false} Redots(w: World, m: set<string>, cur: Path, i: nat, rest: seq<string>, links: nat)
    requires Physical(w, m, cur) && i <= |cur|
    ensures DotsLeadOn(w, m, cur[..i], cur[i..] + rest, links) == DotsLeadOn(w, m, cur, rest, links)
    decreases |cur| - i
  {
    if i == |cur| {
      assert cur[..i] == cur && cur[i..] + rest == rest;
    } else {
      RewalkStep(cur, i, rest);
      Redots(w, m, cur, i + 1, rest, links);
    }
  }

  lemma RewalkStep(cur: Path, i: nat, rest: seq<string>)
    requires i < |cur|
    ensures var parts := cur[i..] + rest;
      parts[0] == cur[i] && parts[1..] == cur[i + 1..] + rest && cur[..i] + [parts[0]] == cur[..i + 1]
  {
  }

  lemma WalkFromTop(w: World, m: set<string>, cur: Path, rest: seq<string>, links: nat)
    requires Physical(w, m, cur)
    ensures Walk(w, m, [], cur + rest, links) == Walk(w, m, cur, rest, links)
  {
    Rewalk(w, m, cur, 0, rest, links);
    assert cur[..0] == [] && cur[0..] == cur;
  }

  lemma SpliceOrdinary(w: World, m: set<string>, base: Path, parts: seq<string>, rest: seq<string>, links: nat)
    requires Physical(w, m, base) && AllOrdinary(parts)
    ensures Walk(w, m, [], Clean(true, base, parts) + rest, links) == Walk(w, m, base, parts + rest, links)
  {
    CleanKeepsOrdinary(true, base, parts);
    assert base + parts + rest == base + (parts + rest);
    WalkFromTop(w, m, base, parts + rest, links);
  }

  lemma WalkUp(w: World, m: set<string>, base: Path, parts: seq<string>, rest: seq<string>, links: nat)
    requires Physical(w, m, base) && parts != [] && parts[0] == ".."
    ensures Walk(w, m, base, parts + rest, links) == Walk(w, m, Parent(base), parts[1..] + rest, links)
  {
    var all := parts + rest;
    assert all[0] == ".." && all[1..] == parts[1..] + rest && base[..|base|] == base;
    StepUp(w, m, base, all, links);
  }

  /** Leading ".." climb the same way lexically and physically, when the climb starts from a physical directory. */
  lemma {:induction false} SpliceIsWalk(w: World, m: set<string>, base: Path, parts: seq<string>, rest: seq<string>,
          links: nat)
    requires Physical(w, m, base)
    requires DotsLead(parts) && TidyTarget(PathName(true, parts))
    ensures Walk(w, m, [], Clean(true, base, parts) + rest, links) == Walk(w, m, base, parts + rest, links)
    decreases |parts|
  {
    if parts == [] {
      WalkFromTop(w, m, base, rest, links);
      assert parts + rest == rest;
    } else if parts[0] == ".." {
      DotsOn(parts);
      ParentIsPhysical(w, m, base);
      SpliceIsWalk(w, m, Parent(base), parts[1..], rest, links);
      CleanUp(base, parts);
      WalkUp(w, m, base, parts, rest, links);
    } else {
      NoDotsLeft(parts);
      SpliceOrdinary(w, m, base, parts, rest, links);
    }
  }

  lemma DotsOn(parts: seq<string>)
    requires parts != [] && DotsLead(parts) && TidyTarget(PathName(true, parts))
    ensures DotsLead(parts[1..]) && TidyTarget(PathName(true, parts[1..]))
  {
  }

  lemma CleanUp(base: Path, parts: seq<string>)
    requires AllOrdinary(base) && parts != [] && parts[0] == ".."
    ensures Clean(true, base, parts) == Clean(true, Parent(base), parts[1..])
  {
    assert base != [] ==> Ordinary(base[|base| - 1]);
  }

  lemma NoDotsLeft(parts: seq<string>)
    requires parts != [] && parts[0] != ".." && DotsLead(parts) && TidyTarget(PathName(true, parts))
    ensures AllOrdinary(parts)
  {
    assert Ordinary(parts[0]);
    forall j | 0 < j < |parts| ensures Ordinary(parts[j]) {
      assert parts[j] != "..";
    }
  }

  lemma ParentIsPhysical(w: World, m: set<string>, base: Path)
    requires Physical(w, m, base)
    ensures Physical(w, m, Parent(base))
  {
    assert forall i :: 0 <= i <= |Parent(base)| ==> Parent(base)[..i] == base[..i];
  }

  lemma LinkIsTidy(w: World, m: set<string>, p: Path)
    requires Valid(w)
    requires Lstat(w, m, p).Some? && Lstat(w, m, p).value.Link?
    ensures TidyTarget(Lstat(w, m, p).value.target)
  {
  }

  lemma SpliceIsOrdinary(cur: Path, t: PathName, rest: seq<string>)
    requires AllOrdinary(cur) && AllOrdinary(rest)
    ensures AllOrdinary(Splice(cur, t) + rest)
  {
    CleanRootedIsOrdinary(if t.absolute then [] else cur, t.parts);
  }

  lemma SplicedParts(w: World, m: set<string>, cur: Path, parts: seq<string>, t: PathName)
    requires Valid(w) && Reached(w, m, cur) && AllOrdinary(parts) && parts != []
    ensures Reached(w, m, []) && AllOrdinary(Splice(cur, t) + parts[1..])
  {
    SpliceIsOrdinary(cur, t, parts[1..]);
    ReachedRoot(w, m);
  }

  lemma WalkLink(w: World, m: set<string>, cur: Path, parts: seq<string>, links: nat, t: PathName)
    requires Valid(w) && Physical(w, m, cur) && AllOrdinary(parts) && parts != [] && links > 0
    requires Lstat(w, m, cur + [parts[0]]) == Some(Link(t)) && DotsLead(t.parts)
    ensures Walk(w, m, cur, parts, links) == Walk(w, m, [], Splice(cur, t) + parts[1..], links - 1)
  {
    LinkIsTidy(w, m, cur + [parts[0]]);
    ReachedRoot(w, m);
    assert cur[..|cur|] == cur;
    SpliceIsWalk(w, m, if t.absolute then [] else cur, t.parts, parts[1..], links - 1);
  }

  lemma DotsLeadPast(w: World, m: set<string>, cur: Path, parts: seq<string>, links: nat)
    requires DotsLeadOn(w, m, cur, parts, links) && parts != [] && IsDir(w, m, cur)
        && Lstat(w, m, cur + [parts[0]]).Some?
    ensures var node := Lstat(w, m, cur + [parts[0]]).value;
      && (node.Link? && links > 0 ==>
            DotsLead(node.target.parts) && DotsLeadOn(w, m, [], Splice(cur, node.target) + parts[1..], links - 1))
      && (!node.Link? ==> DotsLeadOn(w, m, cur + [parts[0]], parts[1..], links))
  {
  }

  lemma ScanLink(w: World, m: set<string>, cur: Path, parts: seq<string>, links: nat, t: PathName)
    requires parts != [] && links > 0 && IsDir(w, m, cur) && Lstat(w, m, cur + [parts[0]]) == Some(Link(t))
    ensures var s' := Scan(w, m, [], Splice(cur, t) + parts[1..], links - 1);
      Scan(w, m, cur, parts, links) == s'.(steps := s'.steps + 1)
  {
  }

  lemma ScanPlain(w: World, m: set<string>, cur: Path, parts: seq<string>, links: nat, fuel: nat)
    requires parts != [] && fuel > 0 && IsDir(w, m, cur)
    requires Lstat(w, m, cur + [parts[0]]).Some? && !Lstat(w, m, cur + [parts[0]]).value.Link?
    ensures var s' := Scan(w, m, cur + [parts[0]], parts[1..], links);
      Scan(w, m, cur, parts, links) == s'.(steps := s'.steps + 1)
    ensures Missing(w, m, cur, parts, fuel) == Missing(w, m, cur + [parts[0]], parts[1..], fuel - 1)
  {
  }

  lemma ScanEnds(w: World, m: set<string>, cur: Path, parts: seq<string>, links: nat)
    requires AllOrdinary(parts)
    requires parts == [] || !IsDir(w, m, cur) || Lstat(w, m, cur + [parts[0]]).None?
             || (links == 0 && Lstat(w, m, cur + [parts[0]]).value.Link?)
    ensures Scan(w, m, cur, parts, links).res == Walk(w, m, cur, parts, links)
  {
  }

  /** The splicing walk resolves exactly as the kernel does. */
  lemma {:induction false} ScanIsWalk(w: World, m: set<string>, cur: Path, parts: seq<string>, links: nat)
    requires Valid(w) && Reached(w, m, cur) && AllOrdinary(parts) && DotsLeadOn(w, m, cur, parts, links)
    ensures Scan(w, m, cur, parts, links).res == Walk(w, m, cur, parts, links)
    decreases links, |parts|, 1
  {
    if parts == [] || !IsDir(w, m, cur) || Lstat(w, m, cur + [parts[0]]).None?
       || (links == 0 && Lstat(w, m, cur + [parts[0]]).value.Link?) {
      ScanEnds(w, m, cur, parts, links);
    } else {
      DotsLeadPast(w, m, cur, parts, links);
      if Lstat(w, m, cur + [parts[0]]).value.Link? {
        ScanIsWalkPastLink(w, m, cur, parts, links, Lstat(w, m, cur + [parts[0]]).value.target);
      } else {
        ReachedNext(w, m, cur, parts[0]);
        ScanIsWalk(w, m, cur + [parts[0]], parts[1..], links);
        ScanPlain(w, m, cur, parts, links, 1);
        StepPlain(w, m, cur, parts, links);
      }
    }
  }

  lemma {:induction false} ScanIsWalkPastLink(w: World, m: set<string>, cur: Path, parts: seq<string>, links: nat,
          t: PathName)
    requires Valid(w) && Reached(w, m, cur) && AllOrdinary(parts) && parts != [] && links > 0 && IsDir(w, m, cur)
    requires Lstat(w, m, cur + [parts[0]]) == Some(Link(t)) && DotsLead(t.parts)
    requires DotsLeadOn(w, m, [], Splice(cur, t) + parts[1..], links - 1)
    ensures Scan(w, m, cur, parts, links).res == Walk(w, m, cur, parts, links)
    decreases links, |parts|, 0
  {
    SplicedParts(w, m, cur, parts, t);
    ScanIsWalk(w, m, [], Splice(cur, t) + parts[1..], links - 1);
    ScanLink(w, m, cur, parts, links, t);
    WalkLink(w, m, cur, parts, links, t);
  }

  lemma ScanStops(w: World, m: set<string>, cur: Path, parts: seq<string>, links: nat)
    requires parts != [] && IsDir(w, m, cur) && Lstat(w, m, cur + [parts[0]]) == None
    ensures Scan(w, m, cur, parts, links).res == NoEnt(cur + [parts[0]])
  {
  }

  lemma UnmountedIsAbsent(w: World, m: set<string>, p: Path)
    requires Valid(w) && Unmounted(w, m, p).Some?
    ensures |p| > |w.root| && p[..|w.root|] == w.root
    ensures Lstat(w, m, w.root + [p[|w.root|]]) == None
  {
    var n := |w.root|;
    var next := w.root + [p[n]];
    assert next[..n] == w.root && next[n] == p[n];
  }

  /** A spliced path that leads into an unmounted store path gets stuck exactly there. */
  lemma EarlyStop(w: World, m: set<string>, p: Path, rest: seq<string>, links: nat)
    requires Valid(w) && Unmounted(w, m, p).Some?
    ensures Scan(w, m, [], p + rest, links).res == NoEnt(p[..|w.root| + 1])
  {
    var n := |w.root|;
    UnmountedIsAbsent(w, m, p);
    RootIsDir(w, m);
    var tail := p[n..] + rest;
    assert w.root[..0] == [] && w.root[0..] == w.root && w.root + tail == p + rest && w.root[..n] == w.root;
    assert tail[0] == p[n] && w.root + [p[n]] == p[..n + 1];
    ScanStops(w, m, w.root, tail, links);
    Rescan(w, m, w.root, 0, tail, links);
  }

  /** An absolute target that names a store path is already clean. */
  lemma RawTargetIsClean(w: World, cur: Path, t: PathName)
    requires Valid(w) && t.absolute && TidyTarget(t) && DotsLead(t.parts)
    requires StorePathOf(w, t.parts).Some?
    ensures Splice(cur, t) == t.parts
  {
    StoreNameIsOrdinary(t.parts[|w.root|]);
    assert AllOrdinary(t.parts) by {
      forall i | 0 <= i < |t.parts| ensures Ordinary(t.parts[i]) {
        if i < |w.root| {
          assert t.parts[i] == w.root[i];
        }
      }
    }
    CleanKeepsOrdinary(true, [], t.parts);
    assert [] + t.parts == t.parts;
  }

  /** A link whose target names an unmounted store path: the walk stops at that store path. */
  lemma TargetStops(w: World, m: set<string>, cur: Path, parts: seq<string>, links: nat, t: PathName)
    requires Valid(w) && parts != []
    requires Lstat(w, m, cur + [parts[0]]) == Some(Link(t)) && DotsLead(t.parts)
    requires Unmounted(w, m, Aim(cur, t)).Some?
    ensures var target := Aim(cur, t);
      var r := Scan(w, m, [], Splice(cur, t) + parts[1..], links).res;
      r.NoEnt? && Unmounted(w, m, r.at) == Unmounted(w, m, target)
  {
    LinkIsTidy(w, m, cur + [parts[0]]);
    var target := Aim(cur, t);
    if t.absolute {
      RawTargetIsClean(w, cur, t);
    }
    EarlyStop(w, m, target, parts[1..], links);
    assert target[..|w.root| + 1][..|w.root|] == target[..|w.root|];
  }

  /** `gap` is what there is to say about a resolution that ended as `s` did: the store path it stopped at, if it
      stopped at one and it is not mounted - and nothing when it resolved, or ran into a file. */
  predicate Explains(w: World, m: set<string>, gap: Option<string>, s: Scanned, fuel: nat) {
    && (s.res.Found? || s.res.NotDir? ==> gap == None)
    && (s.res.NoEnt? && s.steps <= fuel ==> gap == Unmounted(w, m, s.res.at))
  }

  lemma ExplainsOneMore(w: World, m: set<string>, gap: Option<string>, s: Scanned, fuel: nat)
    requires Explains(w, m, gap, s, fuel)
    ensures Explains(w, m, gap, s.(steps := s.steps + 1), fuel + 1)
  {
  }

  lemma MissingLink(w: World, m: set<string>, cur: Path, parts: seq<string>, fuel: nat, t: PathName)
    requires parts != [] && fuel > 0 && IsDir(w, m, cur) && Lstat(w, m, cur + [parts[0]]) == Some(Link(t))
    ensures Missing(w, m, cur, parts, fuel) ==
              if Unmounted(w, m, Aim(cur, t)).Some? then Unmounted(w, m, Aim(cur, t))
              else Missing(w, m, [], Splice(cur, t) + parts[1..], fuel - 1)
  {
  }

  /** Nothing below a file names a store path that is not mounted. */
  lemma NoGapBelowFile(w: World, m: set<string>, cur: Path, c: string)
    requires Valid(w) && Lstat(w, m, cur).Some? && !IsDir(w, m, cur)
    ensures Unmounted(w, m, cur + [c]) == None
  {
    var p := cur + [c];
    if Below(w, p) {
      if |cur| == |w.root| {
        assert p[..|w.root|] == cur && w.root[..|w.root|] == w.root;
        RootIsDir(w, m);
      } else {
        assert p[..|w.root|] == cur[..|w.root|] && p[|w.root|] == cur[|w.root|];
        if !InImage(w, cur) {
          assert StorePathOf(w, cur) == None;
        }
      }
    }
  }

  /** The walk ends, or `missingFor` runs out, without another component. */
  lemma GapAtTheEnd(w: World, m: set<string>, cur: Path, parts: seq<string>, links: nat, fuel: nat)
    requires Valid(w) && Lstat(w, m, cur).Some?
    requires parts == [] || fuel == 0 || !IsDir(w, m, cur) || Lstat(w, m, cur + [parts[0]]).None?
             || (links == 0 && Lstat(w, m, cur + [parts[0]]).value.Link?)
    ensures Explains(w, m, Missing(w, m, cur, parts, fuel), Scan(w, m, cur, parts, links), fuel)
  {
    if parts != [] && !IsDir(w, m, cur) {
      NoGapBelowFile(w, m, cur, parts[0]);
    }
  }

  lemma GapAtTarget(w: World, m: set<string>, cur: Path, parts: seq<string>, links: nat, t: PathName,
          gap: Option<string>, s: Scanned)
    requires Valid(w) && parts != []
    requires Lstat(w, m, cur + [parts[0]]) == Some(Link(t)) && DotsLead(t.parts)
    requires gap == Unmounted(w, m, Aim(cur, t)) && gap.Some?
    requires s == Scan(w, m, [], Splice(cur, t) + parts[1..], links)
    ensures s.res.NoEnt? && gap == Unmounted(w, m, s.res.at)
  {
    TargetStops(w, m, cur, parts, links, t);
  }

  lemma StopExplains(w: World, m: set<string>, gap: Option<string>, s: Scanned, fuel: nat)
    requires s.res.NoEnt? && gap == Unmounted(w, m, s.res.at)
    ensures Explains(w, m, gap, s, fuel)
  {
  }

  /** One link on, whatever explains the rest of the way explains the whole. */
  lemma GapPastLink(w: World, m: set<string>, cur: Path, parts: seq<string>, links: nat, fuel: nat, t: PathName,
          gap: Option<string>)
    requires parts != [] && fuel > 0 && links > 0 && IsDir(w, m, cur) && Lstat(w, m, cur + [parts[0]]) == Some(Link(t))
    requires Explains(w, m, gap, Scan(w, m, [], Splice(cur, t) + parts[1..], links - 1), fuel - 1)
    ensures Explains(w, m, gap, Scan(w, m, cur, parts, links), fuel)
  {
    ScanLink(w, m, cur, parts, links, t);
    ExplainsOneMore(w, m, gap, Scan(w, m, [], Splice(cur, t) + parts[1..], links - 1), fuel - 1);
  }

  /** One link on, with `left` of them left. */
  lemma ScanLinkLeft(w: World, m: set<string>, cur: Path, parts: seq<string>, links: nat, left: nat, t: PathName)
    requires parts != [] && links == left + 1 && IsDir(w, m, cur) && Lstat(w, m, cur + [parts[0]]) == Some(Link(t))
    ensures var s := Scan(w, m, [], Splice(cur, t) + parts[1..], left);
      Scan(w, m, cur, parts, links) == s.(steps := s.steps + 1)
  {
  }

  lemma GapStops(w: World, m: set<string>, cur: Path, parts: seq<string>, links: nat, left: nat, fuel: nat, t: PathName,
          gap: Option<string>, s: Scanned)
    requires parts != [] && fuel > 0 && links == left + 1 && IsDir(w, m, cur)
    requires Lstat(w, m, cur + [parts[0]]) == Some(Link(t))
    requires gap == Unmounted(w, m, Aim(cur, t)) && gap.Some?
    requires s == Scan(w, m, [], Splice(cur, t) + parts[1..], left)
    requires s.res.NoEnt? && gap == Unmounted(w, m, s.res.at)
    ensures Explains(w, m, Missing(w, m, cur, parts, fuel), Scan(w, m, cur, parts, links), fuel)
  {
    MissingLink(w, m, cur, parts, fuel, t);
    ScanLinkLeft(w, m, cur, parts, links, left, t);
    StopExplains(w, m, gap, s, fuel - 1);
    ExplainsOneMore(w, m, gap, s, fuel - 1);
  }

  /** `left` is what remains of the links. */
  lemma GapAtLink(w: World, m: set<string>, cur: Path, parts: seq<string>, links: nat, left: nat, fuel: nat,
          t: PathName,
          gap: Option<string>, s: Scanned)
    requires Valid(w) && parts != [] && fuel > 0 && links == left + 1 && IsDir(w, m, cur)
    requires Lstat(w, m, cur + [parts[0]]) == Some(Link(t))
    requires DotsLead(t.parts) && gap == Unmounted(w, m, Aim(cur, t)) && gap.Some?
    requires s == Scan(w, m, [], Splice(cur, t) + parts[1..], left)
    ensures Explains(w, m, Missing(w, m, cur, parts, fuel), Scan(w, m, cur, parts, links), fuel)
  {
    GapAtTarget(w, m, cur, parts, left, t, gap, s);
    GapStops(w, m, cur, parts, links, left, fuel, t, gap, s);
  }

  lemma GapGoesOn(w: World, m: set<string>, cur: Path, parts: seq<string>, links: nat, fuel: nat, t: PathName)
    requires parts != [] && fuel > 0 && links > 0 && IsDir(w, m, cur) && Lstat(w, m, cur + [parts[0]]) == Some(Link(t))
    requires Unmounted(w, m, Aim(cur, t)).None?
    requires var next := Splice(cur, t) + parts[1..];
      Explains(w, m, Missing(w, m, [], next, fuel - 1), Scan(w, m, [], next, links - 1), fuel - 1)
    ensures Explains(w, m, Missing(w, m, cur, parts, fuel), Scan(w, m, cur, parts, links), fuel)
  {
    MissingLink(w, m, cur, parts, fuel, t);
    GapPastLink(w, m, cur, parts, links, fuel, t, Missing(w, m, [], Splice(cur, t) + parts[1..], fuel - 1));
  }

  /** Asked about a path the kernel could not find, `missingFor` names the store path that resolution
      stopped at, if it stopped at one and it is not mounted; asked about one that resolves, it names nothing. */
  lemma {:induction false} MissingNamesTheGap(w: World, m: set<string>, cur: Path, parts: seq<string>, links: nat,
          fuel: nat)
    requires Valid(w) && Reached(w, m, cur) && AllOrdinary(parts) && DotsLeadOn(w, m, cur, parts, links)
    ensures Explains(w, m, Missing(w, m, cur, parts, fuel), Scan(w, m, cur, parts, links), fuel)
    decreases fuel, 1
  {
    if parts == [] || fuel == 0 || !IsDir(w, m, cur) || Lstat(w, m, cur + [parts[0]]).None?
       || (links == 0 && Lstat(w, m, cur + [parts[0]]).value.Link?) {
      GapAtTheEnd(w, m, cur, parts, links, fuel);
    } else if Lstat(w, m, cur + [parts[0]]).value.Link? {
      DotsLeadPast(w, m, cur, parts, links);
      var t := Lstat(w, m, cur + [parts[0]]).value.target;
      var gap := Unmounted(w, m, Aim(cur, t));
      if gap.Some? {
        var left := links - 1;
        var s := Scan(w, m, [], Splice(cur, t) + parts[1..], left);
        GapAtLink(w, m, cur, parts, links, left, fuel, t, gap, s);
      } else {
        GapBehindLink(w, m, cur, parts, links, fuel, t);
      }
    } else {
      GapBehindPlain(w, m, cur, parts, links, fuel);
    }
  }

  lemma PlainExplains(w: World, m: set<string>, cur: Path, parts: seq<string>, links: nat, fuel: nat, left: nat)
    requires parts != [] && fuel == left + 1 && IsDir(w, m, cur)
    requires Lstat(w, m, cur + [parts[0]]).Some? && !Lstat(w, m, cur + [parts[0]]).value.Link?
    requires var next, rest := cur + [parts[0]], parts[1..];
      Explains(w, m, Missing(w, m, next, rest, left), Scan(w, m, next, rest, links), left)
    ensures Explains(w, m, Missing(w, m, cur, parts, fuel), Scan(w, m, cur, parts, links), fuel)
  {
    PassesPlain(w, m, cur, parts, fuel, left);
    ScanPlain(w, m, cur, parts, links, fuel);
    ExplainsOneMore(w, m, Missing(w, m, cur, parts, fuel), Scan(w, m, cur + [parts[0]], parts[1..], links), left);
  }

  lemma {:induction false} GapBehindPlain(w: World, m: set<string>, cur: Path, parts: seq<string>, links: nat,
          fuel: nat)
    requires Valid(w) && Reached(w, m, cur) && AllOrdinary(parts) && DotsLeadOn(w, m, cur, parts, links)
    requires parts != [] && fuel > 0 && IsDir(w, m, cur)
    requires Lstat(w, m, cur + [parts[0]]).Some? && !Lstat(w, m, cur + [parts[0]]).value.Link?
    ensures Explains(w, m, Missing(w, m, cur, parts, fuel), Scan(w, m, cur, parts, links), fuel)
    decreases fuel, 0
  {
    DotsLeadPast(w, m, cur, parts, links);
    ReachedNext(w, m, cur, parts[0]);
    var left := fuel - 1;
    MissingNamesTheGap(w, m, cur + [parts[0]], parts[1..], links, left);
    PlainExplains(w, m, cur, parts, links, fuel, left);
  }

  lemma {:induction false} GapBehindLink(w: World, m: set<string>, cur: Path, parts: seq<string>, links: nat,
          fuel: nat, t: PathName)
    requires Valid(w) && Reached(w, m, cur) && AllOrdinary(parts)
    requires parts != [] && fuel > 0 && links > 0 && IsDir(w, m, cur) && Lstat(w, m, cur + [parts[0]]) == Some(Link(t))
    requires DotsLeadOn(w, m, [], Splice(cur, t) + parts[1..], links - 1) && Unmounted(w, m, Aim(cur, t)).None?
    ensures Explains(w, m, Missing(w, m, cur, parts, fuel), Scan(w, m, cur, parts, links), fuel)
    decreases fuel, 0
  {
    SplicedParts(w, m, cur, parts, t);
    MissingNamesTheGap(w, m, [], Splice(cur, t) + parts[1..], links - 1, fuel - 1);
    GapGoesOn(w, m, cur, parts, links, fuel, t);
  }

  /** With fewer mounts the resolution follows fewer links. */
  lemma {:induction false} DotsLeadOnFrame(w: World, m: set<string>, m': set<string>, cur: Path, parts: seq<string>,
          links: nat)
    requires Valid(w) && m <= m' && Lstat(w, m, cur).Some? && DotsLeadOn(w, m', cur, parts, links)
    ensures DotsLeadOn(w, m, cur, parts, links)
    decreases links, |parts|
  {
    LstatMonotone(w, m, m', cur);
    RootIsDir(w, m);
    if parts != [] && IsDir(w, m, cur) && Lstat(w, m, cur + [parts[0]]).Some? {
      LstatMonotone(w, m, m', cur + [parts[0]]);
      var node := Lstat(w, m, cur + [parts[0]]).value;
      if !node.Link? {
        DotsLeadOnFrame(w, m, m', cur + [parts[0]], parts[1..], links);
      } else if links > 0 {
        DotsLeadOnFrame(w, m, m', [], Splice(cur, node.target) + parts[1..], links - 1);
      }
    }
  }

  /** Fewer mounts never make the walk longer. */
  lemma {:induction false} ScanFrame(w: World, m: set<string>, m': set<string>, cur: Path, parts: seq<string>,
          links: nat)
    requires Valid(w) && m <= m' && Lstat(w, m, cur).Some?
    ensures Scan(w, m, cur, parts, links).steps <= Scan(w, m', cur, parts, links).steps
    decreases links, |parts|
  {
    LstatMonotone(w, m, m', cur);
    RootIsDir(w, m);
    if parts != [] && IsDir(w, m, cur) {
      var next := cur + [parts[0]];
      if Lstat(w, m, next).Some? {
        LstatMonotone(w, m, m', next);
        var node := Lstat(w, m, next).value;
        if !node.Link? {
          ScanFrame(w, m, m', next, parts[1..], links);
        } else if links > 0 {
          ScanFrame(w, m, m', [], Splice(cur, node.target) + parts[1..], links - 1);
        }
      }
    }
  }

  // ------------------------------------------------------------------ `missingFor` beside other requests

  /** What the answer says of the single namespace of the last lookup. A name: it is not listed, and
      without it the walk in that namespace would name it too. No name: neither does that walk give one,
      but for one that is listed by now. */
  ghost predicate SaysSo(w: World, sight: Sight, cur: Path, parts: seq<string>, fuel: nat) {
    match sight.gap
    case Some(n) => n !in sight.now.listed && Missing(w, sight.seen.live - {n}, cur, parts, fuel) == Some(n)
    case None =>
      var gap := Missing(w, sight.seen.live, cur, parts, fuel);
      gap.Some? ==> gap.value in sight.now.listed
  }

  lemma NameIsCanonical(w: World, m: set<string>, p: Path)
    requires Unmounted(w, m, p).Some?
    ensures Canonical(Unmounted(w, m, p).value)
  {
    StoreNameIsCanonical(p[|w.root|]);
  }

  /** Leaving out one mount changes an answer only at or below its own root. */
  lemma LstatWithout(w: World, m: set<string>, n: string, p: Path)
    requires Canonical(n) && Lstat(w, m - {n}, p) != Lstat(w, m, p)
    ensures StorePathOf(w, p) == Some(n) && Lstat(w, m - {n}, p) == None
  {
  }

  lemma BelowStaysThere(w: World, p: Path, c: string)
    requires StorePathOf(w, p).Some?
    ensures StorePathOf(w, p + [c]) == StorePathOf(w, p)
  {
    assert (p + [c])[..|w.root|] == p[..|w.root|] && (p + [c])[|w.root|] == p[|w.root|];
  }

  /** Without one of the mounts the walk either goes on as before, or names that one here. */
  lemma WithoutIt(w: World, m: set<string>, n: string, cur: Path, parts: seq<string>, fuel: nat)
    requires Canonical(n) && fuel > 0 && parts != []
    ensures Child(w, m - {n}, cur, parts[0]) == Child(w, m, cur, parts[0])
            || Missing(w, m - {n}, cur, parts, fuel) == Some(n)
  {
    var less, next := m - {n}, cur + [parts[0]];
    if Lstat(w, less, cur) != Lstat(w, m, cur) {
      LstatWithout(w, m, n, cur);
      BelowStaysThere(w, cur, parts[0]);
    } else if Lstat(w, less, next) != Lstat(w, m, next) {
      LstatWithout(w, m, n, next);
    }
  }

  lemma ChildStays(w: World, m: set<string>, m': set<string>, cur: Path, c: string)
    requires m <= m' && Child(w, m, cur, c).Some?
    ensures Child(w, m', cur, c) == Child(w, m, cur, c)
  {
    LstatMonotone(w, m, m', cur);
    LstatMonotone(w, m, m', cur + [c]);
  }

  lemma AbsentSaysSo(w: World, m: Mounts, others: Others, cur: Path, parts: seq<string>, fuel: nat)
    requires fuel > 0 && parts != [] && Child(w, Now(m, others).live, cur, parts[0]) == None
    ensures SaysSo(w, MissingBeside(w, m, others, cur, parts, fuel), cur, parts, fuel)
  {
    var sight := MissingBeside(w, m, others, cur, parts, fuel);
    PassesBeside(w, m, others, cur, parts, fuel, fuel - 1);
    if sight.gap.Some? {
      NameIsCanonical(w, sight.now.listed, cur + [parts[0]]);
      WithoutIt(w, sight.seen.live, sight.gap.value, cur, parts, fuel);
    }
  }

  lemma LinkedSaysSo(w: World, m: Mounts, others: Others, cur: Path, parts: seq<string>, fuel: nat, t: PathName)
    requires m.Sound(w) && Real(w, others) && fuel > 0 && parts != []
    requires Child(w, Now(m, others).live, cur, parts[0]) == Some(Link(t))
    requires Unmounted(w, Now(Now(m, others), Later(others)).listed, Aim(cur, t)).Some?
    ensures SaysSo(w, MissingBeside(w, m, others, cur, parts, fuel), cur, parts, fuel)
  {
    var sight := MissingBeside(w, m, others, cur, parts, fuel);
    NowIsLater(w, m, others);
    NowIsLater(w, Now(m, others), Later(others));
    PassesBeside(w, m, others, cur, parts, fuel, fuel - 1);
    NameIsCanonical(w, sight.now.listed, Aim(cur, t));
    ChildStays(w, Now(m, others).live, sight.now.live, cur, parts[0]);
    WithoutIt(w, sight.now.live, sight.gap.value, cur, parts, fuel);
  }

  /** What is said from further on holds from here, if the walk in the later namespace takes this step too. */
  lemma SaidFromHere(w: World, sight: Sight, cur: Path, parts: seq<string>, fuel: nat, left: nat, cur': Path,
          parts': seq<string>)
    requires fuel == left + 1 && parts != [] && SaysSo(w, sight, cur', parts', left)
    requires Missing(w, sight.seen.live, cur, parts, fuel) == Missing(w, sight.seen.live, cur', parts', left)
    requires sight.gap.Some? ==>
               var less := sight.seen.live - {sight.gap.value};
               || Missing(w, less, cur, parts, fuel) == Some(sight.gap.value)
               || Missing(w, less, cur, parts, fuel) == Missing(w, less, cur', parts', left)
    ensures SaysSo(w, sight, cur, parts, fuel)
  {
  }

  lemma PassesPlain(w: World, m: set<string>, cur: Path, parts: seq<string>, fuel: nat, left: nat)
    requires parts != [] && fuel == left + 1
    requires var node := Child(w, m, cur, parts[0]); node.Some? && !node.value.Link?
    ensures Missing(w, m, cur, parts, fuel) == Missing(w, m, cur + [parts[0]], parts[1..], left)
  {
  }

  lemma PassesLink(w: World, m: set<string>, cur: Path, parts: seq<string>, fuel: nat, left: nat, t: PathName)
    requires parts != [] && fuel == left + 1 && Child(w, m, cur, parts[0]) == Some(Link(t))
        && Unmounted(w, m, Aim(cur, t)).None?
    ensures Missing(w, m, cur, parts, fuel) == Missing(w, m, [], Splice(cur, t) + parts[1..], left)
  {
  }

  /** A listed store path is there, and stays there without any that is not listed. */
  lemma ListedIsPassed(w: World, now: Mounts, seen: Mounts, n: string, p: Path)
    requires now.Sound(w) && now.Within(seen) && Unmounted(w, now.listed, p).None?
    ensures Unmounted(w, seen.live, p).None? && (n !in now.listed ==> Unmounted(w, seen.live - {n}, p).None?)
  {
  }

  lemma PlainSaysSo(w: World, now: Mounts, sight: Sight, cur: Path, parts: seq<string>, fuel: nat, left: nat)
    requires fuel == left + 1 && parts != [] && now.Within(sight.seen)
    requires var node := Child(w, now.live, cur, parts[0]); node.Some? && !node.value.Link?
    requires SaysSo(w, sight, cur + [parts[0]], parts[1..], left)
    requires sight.gap.Some? ==> Canonical(sight.gap.value)
    ensures SaysSo(w, sight, cur, parts, fuel)
  {
    ChildStays(w, now.live, sight.seen.live, cur, parts[0]);
    PassesPlain(w, sight.seen.live, cur, parts, fuel, left);
    if sight.gap.Some? {
      var less := sight.seen.live - {sight.gap.value};
      WithoutIt(w, sight.seen.live, sight.gap.value, cur, parts, fuel);
      if Child(w, less, cur, parts[0]) == Child(w, sight.seen.live, cur, parts[0]) {
        PassesPlain(w, less, cur, parts, fuel, left);
      }
    }
    SaidFromHere(w, sight, cur, parts, fuel, left, cur + [parts[0]], parts[1..]);
  }

  lemma LinkSaysSo(w: World, seen: Mounts, now: Mounts, sight: Sight, cur: Path, parts: seq<string>, fuel: nat,
          left: nat,
          t: PathName)
    requires fuel == left + 1 && parts != [] && seen.Within(now) && now.Sound(w) && now.Within(sight.seen)
    requires sight.seen.Within(sight.now)
    requires Child(w, seen.live, cur, parts[0]) == Some(Link(t)) && Unmounted(w, now.listed, Aim(cur, t)).None?
    requires SaysSo(w, sight, [], Splice(cur, t) + parts[1..], left)
    requires sight.gap.Some? ==> Canonical(sight.gap.value)
    ensures SaysSo(w, sight, cur, parts, fuel)
  {
    ChildStays(w, seen.live, sight.seen.live, cur, parts[0]);
    ListedIsPassed(w, now, sight.seen, "", Aim(cur, t));
    PassesLink(w, sight.seen.live, cur, parts, fuel, left, t);
    if sight.gap.Some? {
      var less := sight.seen.live - {sight.gap.value};
      WithoutIt(w, sight.seen.live, sight.gap.value, cur, parts, fuel);
      ListedIsPassed(w, now, sight.seen, sight.gap.value, Aim(cur, t));
      if Child(w, less, cur, parts[0]) == Child(w, sight.seen.live, cur, parts[0]) {
        PassesLink(w, less, cur, parts, fuel, left, t);
      }
    }
    SaidFromHere(w, sight, cur, parts, fuel, left, [], Splice(cur, t) + parts[1..]);
  }

  /** `missingFor` beside other requests answers as the walk in one namespace, that of its last lookup, and one look
      into a table that may be later, or not yet have caught up. */
  lemma {:induction false} MissingAtOnce(w: World, m: Mounts, others: Others, cur: Path, parts: seq<string>, fuel: nat)
    requires m.Sound(w) && Real(w, others)
    ensures AtOnce(w, m, MissingBeside(w, m, others, cur, parts, fuel), cur, parts, fuel)
    decreases fuel, 1
  {
    if fuel == 0 || parts == [] {
    } else {
      match Child(w, Now(m, others).live, cur, parts[0])
      case None => AbsentAtOnce(w, m, others, cur, parts, fuel);
      case Some(Link(t)) => LinkAtOnce(w, m, others, cur, parts, fuel, t);
      case Some(_) => PlainAtOnce(w, m, others, cur, parts, fuel);
    }
  }

  ghost predicate AtOnce(w: World, m: Mounts, sight: Sight, cur: Path, parts: seq<string>, fuel: nat) {
    && m.Within(sight.seen) && sight.seen.Within(sight.now) && sight.now.Sound(w)
    && (sight.gap.Some? ==> Canonical(sight.gap.value))
    && SaysSo(w, sight, cur, parts, fuel)
  }

  lemma AbsentAtOnce(w: World, m: Mounts, others: Others, cur: Path, parts: seq<string>, fuel: nat)
    requires m.Sound(w) && Real(w, others)
    requires fuel > 0 && parts != [] && Child(w, Now(m, others).live, cur, parts[0]) == None
    ensures AtOnce(w, m, MissingBeside(w, m, others, cur, parts, fuel), cur, parts, fuel)
  {
    var sight := MissingBeside(w, m, others, cur, parts, fuel);
    NowIsLater(w, m, others);
    NowIsLater(w, Now(m, others), Later(others));
    PassesBeside(w, m, others, cur, parts, fuel, fuel - 1);
    if sight.gap.Some? {
      NameIsCanonical(w, sight.now.listed, cur + [parts[0]]);
    }
    AbsentSaysSo(w, m, others, cur, parts, fuel);
  }

  lemma {:induction false} PlainAtOnce(w: World, m: Mounts, others: Others, cur: Path, parts: seq<string>, fuel: nat)
    requires m.Sound(w) && Real(w, others) && fuel > 0 && parts != []
    requires var node := Child(w, Now(m, others).live, cur, parts[0]); node.Some? && !node.value.Link?
    ensures AtOnce(w, m, MissingBeside(w, m, others, cur, parts, fuel), cur, parts, fuel)
    decreases fuel, 0
  {
    var left := fuel - 1;
    var seen := Now(m, others);
    NowIsLater(w, m, others);
    PassesBeside(w, m, others, cur, parts, fuel, left);
    MissingAtOnce(w, seen, Later(others), cur + [parts[0]], parts[1..], left);
    PlainSaysSo(w, seen, MissingBeside(w, m, others, cur, parts, fuel), cur, parts, fuel, left);
  }

  lemma {:induction false} LinkAtOnce(w: World, m: Mounts, others: Others, cur: Path, parts: seq<string>, fuel: nat,
          t: PathName)
    requires m.Sound(w) && Real(w, others) && fuel > 0 && parts != []
    requires Child(w, Now(m, others).live, cur, parts[0]) == Some(Link(t))
    ensures AtOnce(w, m, MissingBeside(w, m, others, cur, parts, fuel), cur, parts, fuel)
    decreases fuel, 0
  {
    var left := fuel - 1;
    var seen := Now(m, others);
    var now, rest := Now(seen, Later(others)), Later(Later(others));
    NowIsLater(w, m, others);
    NowIsLater(w, seen, Later(others));
    PassesBeside(w, m, others, cur, parts, fuel, left);
    if Unmounted(w, now.listed, Aim(cur, t)).Some? {
      NameIsCanonical(w, now.listed, Aim(cur, t));
      LinkedSaysSo(w, m, others, cur, parts, fuel, t);
    } else {
      MissingAtOnce(w, now, rest, [], Splice(cur, t) + parts[1..], left);
      LinkSaysSo(w, seen, now, MissingBeside(w, m, others, cur, parts, fuel), cur, parts, fuel, left, t);
    }
  }

  /** A table that keeps up is exactly one because of which no store path is named that the walk could have seen. */
  lemma {:induction false} KeptUp(w: World, m: Mounts, others: Others, cur: Path, parts: seq<string>, fuel: nat)
    ensures var sight := MissingBeside(w, m, others, cur, parts, fuel);
      KeepsUp(w, m, others, cur, parts, fuel) <==> sight.gap.Some? ==> sight.gap.value !in sight.seen.live
    decreases fuel
  {
    if fuel == 0 || parts == [] {
    } else {
      var left := fuel - 1;
      PassesBeside(w, m, others, cur, parts, fuel, left);
      var seen := Now(m, others);
      var now, rest := Now(seen, Later(others)), Later(Later(others));
      match Child(w, seen.live, cur, parts[0])
      case None =>
      case Some(Link(t)) =>
        if Unmounted(w, now.listed, Aim(cur, t)).None? {
          KeptUp(w, now, rest, [], Splice(cur, t) + parts[1..], left);
        }
      case Some(_) => KeptUp(w, seen, Later(others), cur + [parts[0]], parts[1..], left);
    }
  }
}
