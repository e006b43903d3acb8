/** Files behind symlinks from one store path into the next: what a client gets, and what is fetched for it. */
module LazyChains {
  import opened LazyStore
  import opened Namespace
  import opened Options
  import opened Paths
  import opened StoreNames
  import opened StoreWalk

  /** A place inside a store path. */
  datatype Stop = Stop(name: string, inside: Path)

  function At(w: World, stop: Stop): Path {
    w.root + [stop.name] + stop.inside
  }

  ghost predicate Holds(w: World, stop: Stop, node: Node) {
    && stop.name in w.images && stop.inside in w.images[stop.name]
    && w.images[stop.name][stop.inside] == node
  }

  ghost predicate Absent(w: World, stop: Stop) {
    stop.name in w.images && stop.inside !in w.images[stop.name]
  }

  /** The directories that hold the place are there. */
  ghost predicate LeadsTo(w: World, stop: Stop) {
    && stop.inside != [] && AllOrdinary(stop.inside)
    && forall i :: 0 <= i < |stop.inside| ==> Holds(w, Stop(stop.name, stop.inside[..i]), Dir)
  }

  /** Each place but the last holds an absolute link to the next one; the last holds a file, or nothing. */
  ghost predicate Chained(w: World, stops: seq<Stop>)
    decreases |stops|
  {
    && stops != [] && LeadsTo(w, stops[0])
    && if |stops| == 1 then Holds(w, stops[0], File) || Absent(w, stops[0])
       else Holds(w, stops[0], Link(PathName(true, At(w, stops[1])))) && Chained(w, stops[1..])
  }

  function Names(stops: seq<Stop>): (names: seq<string>)
    ensures |names| == |stops|
  {
    if stops == [] then [] else [stops[0].name] + Names(stops[1..])
  }

  /** All the components there are to visit. */
  function Length(w: World, stops: seq<Stop>): nat {
    if stops == [] then 0 else |w.root| + 1 + |stops[0].inside| + Length(w, stops[1..])
  }

  ghost predicate Distinct(names: seq<string>) {
    forall i, j :: 0 <= i < j < |names| ==> names[i] != names[j]
  }

  function Last(stops: seq<Stop>): Stop
    requires stops != []
  {
    stops[|stops| - 1]
  }

  /** Where the chain ends, in the kernel's terms. */
  function EndOf(w: World, stops: seq<Stop>): Resolution
    requires stops != [] && Last(stops).name in w.images
  {
    var last := Last(stops);
    if last.inside in w.images[last.name] then Found(At(w, last)) else NoEnt(At(w, last))
  }

  lemma Inside(w: World, m: set<string>, stop: Stop)
    requires Valid(w) && stop.name in w.images && stop.name in m
    ensures At(w, stop)[..|w.root|] == w.root && At(w, stop)[|w.root|] == stop.name
    ensures InImage(w, At(w, stop))
    ensures Lstat(w, m, At(w, stop)) == if stop.inside in w.images[stop.name]
                                        then Some(w.images[stop.name][stop.inside]) else None
  {
    var p := At(w, stop);
    assert p[..|w.root|] == w.root && p[|w.root|] == stop.name && p[|w.root| + 1..] == stop.inside;
    assert Canonical(stop.name);
  }

  lemma JoinedOrdinary(root: Path, name: string, inside: Path)
    requires AllOrdinary(root) && Ordinary(name) && AllOrdinary(inside)
    ensures AllOrdinary(root + [name] + inside)
  {
  }

  lemma PlaceIsOrdinary(w: World, stop: Stop)
    requires Valid(w) && LeadsTo(w, stop)
    ensures stop.name in w.images && Ordinary(stop.name) && AllOrdinary(At(w, stop))
  {
    assert Holds(w, Stop(stop.name, stop.inside[..0]), Dir);
    StoreNameIsOrdinary(stop.name);
    JoinedOrdinary(w.root, stop.name, stop.inside);
  }

  function Up(stop: Stop): Stop
    requires stop.inside != []
  {
    Stop(stop.name, stop.inside[..|stop.inside| - 1])
  }

  function Name(stop: Stop): string
    requires stop.inside != []
  {
    stop.inside[|stop.inside| - 1]
  }

  lemma UpAndName(w: World, stop: Stop)
    requires stop.inside != []
    ensures At(w, stop) == At(w, Up(stop)) + [Name(stop)]
  {
  }

  lemma AboveOf(w: World, stop: Stop, i: nat)
    requires i <= |At(w, stop)|
    ensures i <= |w.root| ==> At(w, stop)[..i] == w.root[..i]
    ensures i > |w.root| ==> At(w, stop)[..i] == At(w, Stop(stop.name, stop.inside[..i - |w.root| - 1]))
  {
  }

  lemma AboveIsDir(w: World, m: set<string>, stop: Stop, i: nat)
    requires Valid(w) && LeadsTo(w, stop) && stop.name in m && i < |At(w, stop)|
    ensures IsDir(w, m, At(w, stop)[..i])
  {
    AboveOf(w, stop, i);
    if i <= |w.root| {
      RootIsDir(w, m);
    } else {
      var here := Stop(stop.name, stop.inside[..i - |w.root| - 1]);
      assert Holds(w, here, Dir);
      Inside(w, m, here);
    }
  }

  lemma PrefixIsOrdinary(p: Path, c: string)
    requires AllOrdinary(p + [c])
    ensures AllOrdinary(p) && Ordinary(c)
  {
    forall i | 0 <= i < |p| ensures Ordinary(p[i]) {
      assert (p + [c])[i] == p[i];
    }
    assert (p + [c])[|p|] == c;
  }

  lemma DirsMakePhysical(w: World, m: set<string>, p: Path, c: string)
    requires AllOrdinary(p + [c]) && forall i :: 0 <= i <= |p| ==> IsDir(w, m, (p + [c])[..i])
    ensures Physical(w, m, p) && Ordinary(c)
  {
    PrefixIsOrdinary(p, c);
    forall i | 0 <= i <= |p| ensures IsDir(w, m, p[..i]) {
      assert (p + [c])[..i] == p[..i];
    }
  }

  /** The directory that holds the place is reached without a link. */
  lemma UpIsPhysical(w: World, m: set<string>, stop: Stop)
    requires Valid(w) && LeadsTo(w, stop) && stop.name in m
    ensures Physical(w, m, At(w, Up(stop))) && Ordinary(Name(stop))
  {
    UpAndName(w, stop);
    PlaceIsOrdinary(w, stop);
    forall i | 0 <= i <= |At(w, Up(stop))| ensures IsDir(w, m, At(w, stop)[..i]) {
      AboveIsDir(w, m, stop, i);
    }
    DirsMakePhysical(w, m, At(w, Up(stop)), Name(stop));
  }

  /** Going down directories from the top takes one step a component, and enters the store path they are in. */
  lemma {:induction false} DownSteps(w: World, m: set<string>, cur: Path, i: nat, rest: seq<string>, links: nat)
    requires Physical(w, m, cur) && i <= |cur|
    ensures Scan(w, m, cur[..i], cur[i..] + rest, links).steps == |cur| - i + Scan(w, m, cur, rest, links).steps
    decreases |cur| - i
  {
    if i == |cur| {
      assert cur[..i] == cur && cur[i..] + rest == rest;
    } else {
      RewalkStep(cur, i, rest);
      DownSteps(w, m, cur, i + 1, rest, links);
      assert IsDir(w, m, cur[..i]) && IsDir(w, m, cur[..i + 1]);
    }
  }

  lemma {:induction false} DownVia(w: World, m: set<string>, cur: Path, i: nat, rest: seq<string>, links: nat)
    requires Physical(w, m, cur) && i <= |cur| && |w.root| < |cur| && InImage(w, cur)
    ensures Via(w, m, cur[..i], cur[i..] + rest, links) == EnteredFrom(w, cur, i) + Via(w, m, cur, rest, links)
    decreases |cur| - i
  {
    if i == |cur| {
      assert cur[..i] == cur && cur[i..] + rest == rest;
    } else {
      RewalkStep(cur, i, rest);
      DownVia(w, m, cur, i + 1, rest, links);
      OneDown(w, m, cur, i, cur[i..] + rest, links);
      EnteredAt(w, cur, i);
      Regroup(Entered(w, cur[..i], cur[i]), EnteredFrom(w, cur, i + 1), Via(w, m, cur, rest, links));
    }
  }

  lemma Regroup(a: seq<string>, b: seq<string>, c: seq<string>)
    ensures a + (b + c) == a + b + c
  {
  }

  /** The store path that going from the i-th directory down to `cur` enters. */
  function EnteredFrom(w: World, cur: Path, i: nat): seq<string>
    requires |w.root| < |cur|
  {
    if i <= |w.root| then [cur[|w.root|]] else []
  }

  lemma OneDown(w: World, m: set<string>, cur: Path, i: nat, parts: seq<string>, links: nat)
    requires Physical(w, m, cur) && i < |cur|
    requires parts != [] && parts[0] == cur[i] && cur[..i] + [parts[0]] == cur[..i + 1]
    ensures Via(w, m, cur[..i], parts, links)
         == Entered(w, cur[..i], cur[i]) + Via(w, m, cur[..i + 1], parts[1..], links)
  {
    assert IsDir(w, m, cur[..i]) && IsDir(w, m, cur[..i + 1]) && Ordinary(cur[i]);
    StepPlain(w, m, cur[..i], parts, links);
  }

  lemma EnteredAt(w: World, cur: Path, i: nat)
    requires i < |cur| && |w.root| < |cur| && InImage(w, cur)
    ensures Entered(w, cur[..i], cur[i]) + EnteredFrom(w, cur, i + 1) == EnteredFrom(w, cur, i)
  {
    if i == |w.root| {
      assert cur[..i] + [cur[i]] == cur[..i + 1];
    }
  }

  /** A resolution: where it ends, what it enters, how many components it visits, and whether the dots of the links it
      follows lead. */
  datatype Course = Course(end: Resolution, via: seq<string>, steps: nat, leads: bool)

  ghost function CourseFrom(w: World, cur: Path, parts: seq<string>, links: nat): Course {
    var m := w.images.Keys;
    Course(Walk(w, m, cur, parts, links), Via(w, m, cur, parts, links), Scan(w, m, cur, parts, links).steps,
      DotsLeadOn(w, m, cur, parts, links))
  }

  /** Going down to a place, as far as the directory that holds it. */
  lemma Down(w: World, stop: Stop, links: nat)
    requires Valid(w) && LeadsTo(w, stop) && stop.name in w.images
    ensures var up := At(w, Up(stop)); var c := CourseFrom(w, up, [Name(stop)], links);
      CourseFrom(w, [], At(w, stop), links) == c.(via := [stop.name] + c.via, steps := |up| + c.steps)
  {
    var m, up, name := w.images.Keys, At(w, Up(stop)), Name(stop);
    UpIsPhysical(w, m, stop);
    UpAndName(w, stop);
    Inside(w, m, Up(stop));
    assert up[..0] == [] && up[0..] == up;
    Rewalk(w, m, up, 0, [name], links);
    DownSteps(w, m, up, 0, [name], links);
    DownVia(w, m, up, 0, [name], links);
    Redots(w, m, up, 0, [name], links);
  }

  /** What stands at a place, seen from the directory that holds it. */
  lemma SeenFromUp(w: World, stop: Stop)
    requires Valid(w) && LeadsTo(w, stop) && stop.name in w.images
    ensures var m, up, name := w.images.Keys, At(w, Up(stop)), Name(stop);
      && IsDir(w, m, up) && Ordinary(name) && up + [name] == At(w, stop) && |At(w, stop)| == |up| + 1
      && Lstat(w, m, up + [name]) == (if stop.inside in w.images[stop.name] then Some(w.images[stop.name][stop.inside])
                                      else None)
      && Entered(w, up, name) == []
  {
    var up := At(w, Up(stop));
    UpIsPhysical(w, w.images.Keys, stop);
    UpAndName(w, stop);
    Inside(w, w.images.Keys, stop);
    assert up[..|up|] == up;
  }

  lemma OneStepEnds(w: World, cur: Path, name: string, links: nat)
    requires IsDir(w, w.images.Keys, cur) && Ordinary(name) && Entered(w, cur, name) == []
    requires var node := Lstat(w, w.images.Keys, cur + [name]); node.Some? ==> !node.value.Link?
    ensures var end := if Lstat(w, w.images.Keys, cur + [name]).Some? then Found(cur + [name]) else NoEnt(cur + [name]);
      CourseFrom(w, cur, [name], links) == Course(end, [], 1, true)
  {
    var m := w.images.Keys;
    assert [name][0] == name && [name][1..] == [];
    if Lstat(w, m, cur + [name]).Some? {
      StepPlain(w, m, cur, [name], links);
      PlainScanned(w, cur, [name], [], links);
      assert Entered(w, cur, name) + [] == [];
    }
  }

  lemma PlainScanned(w: World, cur: Path, parts: seq<string>, rest: seq<string>, links: nat)
    requires parts != [] && parts[1..] == rest && IsDir(w, w.images.Keys, cur)
    requires var node := Lstat(w, w.images.Keys, cur + [parts[0]]); node.Some? && !node.value.Link?
    ensures var m := w.images.Keys;
      && Scan(w, m, cur, parts, links).steps == 1 + Scan(w, m, cur + [parts[0]], rest, links).steps
      && DotsLeadOn(w, m, cur, parts, links) == DotsLeadOn(w, m, cur + [parts[0]], rest, links)
  {
  }

  lemma SpliceNext(cur: Path, next: Path)
    requires AllOrdinary(next)
    ensures Splice(cur, PathName(true, next)) == next && DotsLead(next) && next + [] == next
  {
    CleanKeepsOrdinary(true, [], next);
    assert [] + next == next;
    NoDots(next);
  }

  lemma OneStepOn(w: World, cur: Path, name: string, next: Path, links: nat, left: nat)
    requires IsDir(w, w.images.Keys, cur) && Ordinary(name) && AllOrdinary(next) && links == left + 1
    requires Lstat(w, w.images.Keys, cur + [name]) == Some(Link(PathName(true, next)))
    ensures var c := CourseFrom(w, [], next, left); CourseFrom(w, cur, [name], links) == c.(steps := 1 + c.steps)
  {
    assert [name][0] == name && [name][1..] == [];
    SpliceNext(cur, next);
    StepLink(w, w.images.Keys, cur, [name], links, PathName(true, next));
    LinkScanned(w, cur, [name], next, links, left);
  }

  lemma LinkScanned(w: World, cur: Path, parts: seq<string>, next: Path, links: nat, left: nat)
    requires parts != [] && IsDir(w, w.images.Keys, cur) && links == left + 1
    requires Lstat(w, w.images.Keys, cur + [parts[0]]) == Some(Link(PathName(true, next)))
    requires Splice(cur, PathName(true, next)) + parts[1..] == next && DotsLead(next)
    ensures var m := w.images.Keys;
      && Scan(w, m, cur, parts, links).steps == 1 + Scan(w, m, [], next, left).steps
      && DotsLeadOn(w, m, cur, parts, links) == DotsLeadOn(w, m, [], next, left)
  {
  }

  lemma EndsHere(w: World, stop: Stop, links: nat)
    requires Valid(w) && LeadsTo(w, stop) && (Holds(w, stop, File) || Absent(w, stop))
    ensures CourseFrom(w, [], At(w, stop), links) == Course(EndOf(w, [stop]), [stop.name], |At(w, stop)|, true)
  {
    Down(w, stop, links);
    SeenFromUp(w, stop);
    OneStepEnds(w, At(w, Up(stop)), Name(stop), links);
  }

  lemma GoesOn(w: World, stop: Stop, next: Path, links: nat, left: nat)
    requires Valid(w) && LeadsTo(w, stop) && Holds(w, stop, Link(PathName(true, next))) && AllOrdinary(next)
    requires links == left + 1
    ensures var c := CourseFrom(w, [], next, left);
      CourseFrom(w, [], At(w, stop), links) == c.(via := [stop.name] + c.via, steps := |At(w, stop)| + c.steps)
  {
    Down(w, stop, links);
    SeenFromUp(w, stop);
    OneStepOn(w, At(w, Up(stop)), Name(stop), next, links, left);
  }

  lemma NoDots(parts: seq<string>)
    requires AllOrdinary(parts)
    ensures DotsLead(parts)
  {
  }

  lemma {:induction false} ChainedToTheEnd(w: World, stops: seq<Stop>)
    requires Chained(w, stops)
    ensures Last(stops).name in w.images && (Holds(w, Last(stops), File) || Absent(w, Last(stops)))
    decreases |stops|
  {
    if |stops| == 1 {
    } else {
      ChainedToTheEnd(w, stops[1..]);
    }
  }

  lemma {:induction false} ChainComes(w: World, stops: seq<Stop>, links: nat)
    requires Valid(w) && Chained(w, stops) && |stops| <= links + 1
    ensures Last(stops).name in w.images
    ensures CourseFrom(w, [], At(w, stops[0]), links)
         == Course(EndOf(w, stops), Names(stops), Length(w, stops), true)
    decreases |stops|
  {
    ChainedToTheEnd(w, stops);
    if |stops| == 1 {
      assert stops == [stops[0]];
      EndsHere(w, stops[0], links);
    } else {
      var rest, left := stops[1..], links - 1;
      ChainComes(w, rest, left);
      PlaceIsOrdinary(w, rest[0]);
      GoesOn(w, stops[0], At(w, rest[0]), links, left);
    }
  }

  lemma {:induction false} NeededOnce(via: seq<string>, m: set<string>)
    requires Distinct(via) && forall n :: n in via ==> n !in m
    ensures Needed(via, m) == via
    decreases |via|
  {
    if via == [] {
    } else {
      assert via[0] in via;
      forall n | n in via[1..] ensures n !in m + {via[0]} {
        var j :| 0 <= j < |via[1..]| && via[1..][j] == n;
        assert via[j + 1] == n;
      }
      NeededOnce(via[1..], m + {via[0]});
      assert via == [via[0]] + via[1..];
    }
  }

  lemma {:induction false} NamesAre(stops: seq<Stop>)
    ensures |Names(stops)| == |stops| && forall i :: 0 <= i < |stops| ==> Names(stops)[i] == stops[i].name
    decreases |stops|
  {
    if stops == [] {
    } else {
      NamesAre(stops[1..]);
    }
  }

  lemma ChainNeeds(w: World, stops: seq<Stop>)
    requires Valid(w) && Chained(w, stops) && |stops| <= 41 && Distinct(Names(stops))
    ensures Last(stops).name in w.images && Eager(w, At(w, stops[0])) == EndOf(w, stops)
    ensures Needed(EagerVia(w, At(w, stops[0])), {}) == Names(stops)
    ensures Last(stops).name in Names(stops)
  {
    ChainComes(w, stops, KERNEL_LINKS);
    NeededOnce(Names(stops), {});
    NamesAre(stops);
    assert Names(stops)[|stops| - 1] == Last(stops).name;
  }

  lemma NothingToMountAtTheEnd(w: World, m: set<string>, stop: Stop)
    requires Valid(w) && stop.name in w.images && stop.name in m
    ensures Unmounted(w, m, At(w, stop)) == None
  {
    Inside(w, m, stop);
    assert Canonical(stop.name);
  }

  lemma ChainWants(w: World, stops: seq<Stop>)
    requires Valid(w) && Chained(w, stops) && |stops| <= 41 && Distinct(Names(stops))
    ensures Last(stops).name in w.images
    ensures Wanted(w, At(w, stops[0]), {}) == Names(stops)
    ensures EagerOutcome(w, At(w, stops[0])) ==
              if Last(stops).inside in w.images[Last(stops).name] then Opened(At(w, Last(stops))) else NotFound
  {
    ChainNeeds(w, stops);
    NothingToMountAtTheEnd(w, w.images.Keys, Last(stops));
    NothingToMountAtTheEnd(w, {} + (set n | n in Names(stops)), Last(stops));
  }

  /** With nothing mounted, every fetch working and nobody else about, opening the first place of a chain of links gives
      the file at its end, or not-found when there is none; it fetches the store paths of the chain, in its order. Its
      sixteen hops are enough for fifteen of them: one more and it gives up, all sixteen fetched. */
  lemma ChainIsFollowed(w: World, stops: seq<Stop>, others: seq<Interference>)
    requires Valid(w) && Chained(w, stops) && Distinct(Names(stops))
    requires |stops| <= 41 && Length(w, stops) <= 256
    requires |others| == 16 && forall i :: 0 <= i < 16 ==> others[i] == Interference([], [])
    ensures Last(stops).name in w.images
    ensures var run := Lazy(w, Mounts({}, {}), At(w, stops[0]), w.images.Keys, others);
      && (|stops| <= 15 ==> run.asked == Names(stops))
      && (|stops| <= 15 ==>
            run.outcome == if Last(stops).inside in w.images[Last(stops).name] then Opened(At(w, Last(stops)))
                           else NotFound)
      && (|stops| >= 16 ==> run.outcome == GaveUp && run.asked == Names(stops)[..16])
  {
    var path := At(w, stops[0]);
    ChainComes(w, stops, KERNEL_LINKS);
    ChainWants(w, stops);
    NamesAre(stops);
    PlaceIsOrdinary(w, stops[0]);
    Started(w, path, others);
    LazyEqualsEager(w, Mounts({}, {}), path, others);
    AskedOf(Lazy(w, Mounts({}, {}), path, w.images.Keys, others), Names(stops), EagerOutcome(w, path));
  }

  /** What asking in order comes to with sixteen hops. */
  lemma AskedOf(run: Run, names: seq<string>, last: Outcome)
    requires AskedInOrder(run, names, 16, last)
    ensures |names| <= 15 ==> run.asked == names && run.outcome == last
    ensures |names| >= 16 ==> run.asked == names[..16] && run.outcome == GaveUp
  {
  }

  lemma Started(w: World, path: Path, others: seq<Interference>)
    requires Valid(w) && AllOrdinary(path) && forall i :: 0 <= i < |others| ==> others[i] == Interference([], [])
    ensures Setting(w, Mounts({}, {}), path, w.images.Keys, others) && Alone(Mounts({}, {}), others)
  {
  }
}
