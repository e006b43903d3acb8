/** The file namespace the lazy store serves from, and the kernel's pathname resolution in it
    (POSIX.1-2017 Base Definitions, section 4.13). */
module Namespace {
  import opened Options
  import opened Paths
  import opened StoreNames

  type Path = seq<string>

  datatype Node = Dir | File | Link(target: PathName)

  /** `root` is the mount root, `host` what the container itself holds, and `images` the tree
      behind every store path that can be fetched, by its canonical name. */
  datatype World = World(root: Path, host: map<Path, Node>, images: map<string, map<Path, Node>>)

  predicate Below(w: World, p: Path) {
    |p| > |w.root| && p[..|w.root|] == w.root
  }

  /** The store path that `p` names or leads into (splitStorePath), or None. */
  function StorePathOf(w: World, p: Path): Option<string> {
    if Below(w, p) then StoreName(p[|w.root|]) else None
  }

  predicate InImage(w: World, p: Path) {
    Below(w, p) && Canonical(p[|w.root|])
  }

  /** What stands at the physical path `p` when exactly the images in `mounted` are mounted. */
  function Lstat(w: World, mounted: set<string>, p: Path): Option<Node> {
    if InImage(w, p) then
      var name, rest := p[|w.root|], p[|w.root| + 1..];
      if name in mounted && name in w.images && rest in w.images[name]
      then Some(w.images[name][rest]) else None
    else if p in w.host then Some(w.host[p]) else None
  }

  predicate IsDir(w: World, mounted: set<string>, p: Path) {
    Lstat(w, mounted, p) == Some(Dir)
  }

  ghost predicate TidyTarget(t: PathName) {
    forall i :: 0 <= i < |t.parts| ==> t.parts[i] == ".." || Ordinary(t.parts[i])
  }

  ghost predicate TidyTree(tree: map<Path, Node>) {
    forall p :: p in tree && tree[p].Link? ==> TidyTarget(tree[p].target)
  }

  /** The mount root is a plain directory chain with nothing store-shaped in it but mounts,
      every image is a tree, and link targets carry no empty or "." components. */
  ghost predicate Valid(w: World) {
    && AllOrdinary(w.root)
    && (forall i :: 0 <= i <= |w.root| ==> w.root[..i] in w.host && w.host[w.root[..i]] == Dir)
    && (forall p :: p in w.host ==> StorePathOf(w, p) == None)
    && (forall n :: n in w.images ==> Canonical(n) && [] in w.images[n] && w.images[n][[]] == Dir)
    && TidyTree(w.host)
    && (forall n :: n in w.images ==> TidyTree(w.images[n]))
  }

  function Parent(p: Path): Path {
    if p == [] then [] else p[..|p| - 1]
  }

  datatype Resolution =
    | Found(at: Path)          // the physical path of the file that was reached
    | NoEnt(at: Path)          // the first entry that does not exist
    | NotDir(at: Path)
    | TooManyLinks

  /** Resolves `parts` from the physical directory `cur`, following at most `links` symlinks. */
  function Walk(w: World, mounted: set<string>, cur: Path, parts: seq<string>, links: nat): Resolution
    decreases links, |parts|
  {
    if parts == [] then Found(cur)
    else if !IsDir(w, mounted, cur) then NotDir(cur)
    else if parts[0] == ".." then Walk(w, mounted, Parent(cur), parts[1..], links)
    else
      var next := cur + [parts[0]];
      match Lstat(w, mounted, next)
      case None => NoEnt(next)
      case Some(Link(t)) =>
        if links == 0 then TooManyLinks
        else Walk(w, mounted, if t.absolute then [] else cur, t.parts + parts[1..], links - 1)
      case Some(_) => Walk(w, mounted, next, parts[1..], links)
  }

  /** The store paths mounted at some moment, and those of them that the mount table already lists. A mount is there
      first and listed afterwards; neither is ever taken back. */
  datatype Mounts = Mounts(live: set<string>, listed: set<string>) {

    predicate Sound(w: World) { listed <= live <= w.images.Keys }

    predicate Within(later: Mounts) { live <= later.live && listed <= later.listed }

    /** After some more mounts and listings. */
    function Grown(more: Mounts): Mounts {
      Mounts(live + more.live + more.listed, listed + more.listed)
    }

    function With(name: string): Mounts { Mounts(live + {name}, listed + {name}) }
  }

  /** What other requests do to the mounts before each look one takes at them, while they do anything. */
  type Others = seq<Mounts>

  function Now(m: Mounts, others: Others): Mounts {
    if others == [] then m else m.Grown(others[0])
  }

  function Later(others: Others): Others {
    if others == [] then [] else others[1..]
  }

  /** Others mount what can be fetched. */
  predicate Real(w: World, others: Others) {
    forall i :: 0 <= i < |others| ==> others[i].live <= w.images.Keys && others[i].listed <= w.images.Keys
  }

  datatype Look = Look(res: Resolution, seen: Mounts)

  /** Resolution while others mount: each lookup sees what is mounted by then. */
  function WalkBeside(w: World, m: Mounts, others: Others, cur: Path, parts: seq<string>, links: nat): Look
    decreases links, |parts|
  {
    if parts == [] then Look(Found(cur), m)
    else
      var now, rest := Now(m, others), Later(others);
      if !IsDir(w, now.live, cur) then Look(NotDir(cur), now)
      else if parts[0] == ".." then WalkBeside(w, now, rest, Parent(cur), parts[1..], links)
      else
        var next := cur + [parts[0]];
        match Lstat(w, now.live, next)
        case None => Look(NoEnt(next), now)
        case Some(Link(t)) =>
          if links == 0 then Look(TooManyLinks, now)
          else WalkBeside(w, now, rest, if t.absolute then [] else cur, t.parts + parts[1..], links - 1)
        case Some(_) => WalkBeside(w, now, rest, next, parts[1..], links)
  }

  /** The store path entered by going from `cur` to `c` in it, if any. */
  function Entered(w: World, cur: Path, c: string): seq<string> {
    if cur == w.root && InImage(w, cur + [c]) then [c] else []
  }

  /** The store paths that resolution enters, in order. */
  function Via(w: World, mounted: set<string>, cur: Path, parts: seq<string>, links: nat): seq<string>
    decreases links, |parts|
  {
    if parts == [] || !IsDir(w, mounted, cur) then []
    else if parts[0] == ".." then Via(w, mounted, Parent(cur), parts[1..], links)
    else
      var next := cur + [parts[0]];
      match Lstat(w, mounted, next)
      case None => []
      case Some(Link(t)) =>
        if links == 0 then []
        else Via(w, mounted, if t.absolute then [] else cur, t.parts + parts[1..], links - 1)
      case Some(_) =>
        Entered(w, cur, parts[0]) + Via(w, mounted, next, parts[1..], links)
  }

  /** Every component of `cur` is a directory, none of them a link. */
  ghost predicate Physical(w: World, mounted: set<string>, cur: Path) {
    && AllOrdinary(cur)
    && forall i :: 0 <= i <= |cur| ==> IsDir(w, mounted, cur[..i])
  }

  /** `p` is the root of a store path that can be fetched but is not mounted. */
  ghost predicate Stuck(w: World, mounted: set<string>, r: Resolution) {
    && r.NoEnt?
    && |r.at| == |w.root| + 1 && InImage(w, r.at)
    && r.at[|w.root|] !in mounted
  }

  lemma LstatMonotone(w: World, m: set<string>, m': set<string>, p: Path)
    requires m <= m' && Lstat(w, m, p).Some?
    ensures Lstat(w, m', p) == Lstat(w, m, p)
  {
  }

  /** A mount gives a new answer only at or below the store path it was missing. */
  lemma LstatNew(w: World, m: set<string>, m': set<string>, cur: Path, c: string)
    requires Valid(w) && m <= m'
    requires IsDir(w, m, cur)
    requires Lstat(w, m, cur + [c]) == None && Lstat(w, m', cur + [c]).Some?
    ensures cur == w.root && Canonical(c) && c !in m && c in m'
    ensures Lstat(w, m', cur + [c]) == Some(Dir)
  {
    var p := cur + [c];
    assert Parent(p) == cur;
    if |p| > |w.root| + 1 && InImage(w, p) {
      BelowMounted(w, m, p);
    }
    assert |p| == |w.root| + 1 ==> p[..|w.root|] == cur && p[|w.root| + 1..] == [];
  }

  /** What stands below a directory inside an image belongs to that image, which is mounted. */
  lemma BelowMounted(w: World, m: set<string>, p: Path)
    requires |p| > |w.root| + 1 && InImage(w, p) && IsDir(w, m, Parent(p))
    ensures p[|w.root|] in m
  {
    var up := Parent(p);
    assert up[..|w.root|] == p[..|w.root|] && up[|w.root|] == p[|w.root|];
  }

  lemma RootIsDir(w: World, m: set<string>)
    requires Valid(w)
    ensures IsDir(w, m, []) && Physical(w, m, w.root)
  {
    assert w.root[..0] == [];
    assert forall i :: 0 <= i <= |w.root| ==> Lstat(w, m, w.root[..i]) == Some(w.host[w.root[..i]]);
  }

  /** A mount does not touch what stands above a directory that is there. */
  lemma ParentStays(w: World, m: set<string>, m': set<string>, cur: Path)
    requires m <= m' && IsDir(w, m, cur)
    ensures Lstat(w, m', Parent(cur)) == Lstat(w, m, Parent(cur))
  {
    var up := Parent(cur);
    if InImage(w, up) {
      assert cur[..|w.root|] == up[..|w.root|] && cur[|w.root|] == up[|w.root|];
      assert InImage(w, cur);
    }
  }

  /** A resolution and the store paths it entered, and the same with more mounted: they agree, unless the first had
      stopped at the root of a store path that was not mounted; and then the second goes through it. */
  ghost predicate Framed(w: World, m: set<string>, m': set<string>, r: Resolution, via: seq<string>, r': Resolution,
          via': seq<string>) {
    || (r' == r && via' == via)
    || (Stuck(w, m, r) && r.at[|w.root|] in m' && via + [r.at[|w.root|]] <= via')
  }

  lemma FramedPrefix(w: World, m: set<string>, m': set<string>, r: Resolution, via: seq<string>, r': Resolution,
          via': seq<string>, pre: seq<string>)
    requires Framed(w, m, m', r, via, r', via')
    ensures Framed(w, m, m', r, pre + via, r', pre + via')
  {
    if r.NoEnt? && |w.root| < |r.at| {
      assert pre + via + [r.at[|w.root|]] == pre + (via + [r.at[|w.root|]]);
    }
  }

  lemma StepUp(w: World, m: set<string>, cur: Path, parts: seq<string>, links: nat)
    requires parts != [] && parts[0] == ".." && IsDir(w, m, cur)
    ensures Walk(w, m, cur, parts, links) == Walk(w, m, Parent(cur), parts[1..], links)
    ensures Via(w, m, cur, parts, links) == Via(w, m, Parent(cur), parts[1..], links)
  {
  }

  lemma StepLink(w: World, m: set<string>, cur: Path, parts: seq<string>, links: nat, t: PathName)
    requires parts != [] && parts[0] != ".." && IsDir(w, m, cur) && Lstat(w, m, cur + [parts[0]]) == Some(Link(t))
    ensures links == 0 ==> Walk(w, m, cur, parts, links) == TooManyLinks && Via(w, m, cur, parts, links) == []
    ensures links > 0 ==>
        Walk(w, m, cur, parts, links) == Walk(w, m, if t.absolute then [] else cur, t.parts + parts[1..], links - 1)
    ensures links > 0 ==>
        Via(w, m, cur, parts, links) == Via(w, m, if t.absolute then [] else cur, t.parts + parts[1..], links - 1)
  {
  }

  lemma StepPlain(w: World, m: set<string>, cur: Path, parts: seq<string>, links: nat)
    requires parts != [] && parts[0] != ".." && IsDir(w, m, cur)
    requires Lstat(w, m, cur + [parts[0]]).Some? && !Lstat(w, m, cur + [parts[0]]).value.Link?
    ensures Walk(w, m, cur, parts, links) == Walk(w, m, cur + [parts[0]], parts[1..], links)
    ensures Via(w, m, cur, parts, links) == Entered(w, cur, parts[0]) + Via(w, m, cur + [parts[0]], parts[1..], links)
  {
  }

  /** Where the walk ends without another step, more mounts change nothing but the end of a missing store path. */
  lemma FramedEnd(w: World, m: set<string>, m': set<string>, cur: Path, parts: seq<string>, links: nat)
    requires Valid(w) && m <= m'
    requires parts == [] || (!IsDir(w, m, cur) && !IsDir(w, m', cur))
    ensures Framed(w, m, m', Walk(w, m, cur, parts, links), Via(w, m, cur, parts, links),
        Walk(w, m', cur, parts, links), Via(w, m', cur, parts, links))
  {
  }

  lemma FramedGap(w: World, m: set<string>, m': set<string>, cur: Path, parts: seq<string>, links: nat)
    requires Valid(w) && m <= m' && parts != [] && parts[0] != ".." && IsDir(w, m, cur) && IsDir(w, m', cur)
    requires Lstat(w, m, cur + [parts[0]]) == None
    ensures Framed(w, m, m', Walk(w, m, cur, parts, links), Via(w, m, cur, parts, links),
        Walk(w, m', cur, parts, links), Via(w, m', cur, parts, links))
  {
    if Lstat(w, m', cur + [parts[0]]).Some? {
      var c := parts[0];
      LstatNew(w, m, m', cur, c);
      StepPlain(w, m', cur, parts, links);
      assert (cur + [c])[|w.root|] == c && (cur + [c])[..|w.root|] == w.root;
      assert Entered(w, cur, c) == [c] && [] + [c] == [c];
    }
  }

  /** The frame lemma. Mounting more never changes a resolution, unless that resolution had stopped
      at the root of a store path that was not mounted; and then the larger namespace goes through it. */
  lemma {:induction false} MountFrame(w: World, m: set<string>, m': set<string>, cur: Path, parts: seq<string>,
          links: nat)
    requires Valid(w) && m <= m' && Lstat(w, m, cur).Some?
    ensures Framed(w, m, m', Walk(w, m, cur, parts, links), Via(w, m, cur, parts, links),
        Walk(w, m', cur, parts, links), Via(w, m', cur, parts, links))
    decreases links, |parts|, 1
  {
    LstatMonotone(w, m, m', cur);
    if parts == [] || !IsDir(w, m, cur) {
      FramedEnd(w, m, m', cur, parts, links);
    } else if parts[0] == ".." {
      StepUp(w, m, cur, parts, links);
      StepUp(w, m', cur, parts, links);
      ParentStays(w, m, m', cur);
      if Lstat(w, m, Parent(cur)).Some? {
        MountFrame(w, m, m', Parent(cur), parts[1..], links);
      } else {
        FramedEnd(w, m, m', Parent(cur), parts[1..], links);
      }
    } else if Lstat(w, m, cur + [parts[0]]).None? {
      FramedGap(w, m, m', cur, parts, links);
    } else {
      LstatMonotone(w, m, m', cur + [parts[0]]);
      FramedStep(w, m, m', cur, parts, links);
    }
  }

  lemma {:induction false} FramedStep(w: World, m: set<string>, m': set<string>, cur: Path, parts: seq<string>,
          links: nat)
    requires Valid(w) && m <= m' && parts != [] && parts[0] != ".." && IsDir(w, m, cur) && IsDir(w, m', cur)
    requires Lstat(w, m, cur + [parts[0]]).Some? && Lstat(w, m', cur + [parts[0]]) == Lstat(w, m, cur + [parts[0]])
    ensures Framed(w, m, m', Walk(w, m, cur, parts, links), Via(w, m, cur, parts, links),
        Walk(w, m', cur, parts, links), Via(w, m', cur, parts, links))
    decreases links, |parts|, 0
  {
    var next, node := cur + [parts[0]], Lstat(w, m, cur + [parts[0]]).value;
    if node.Link? {
      StepLink(w, m, cur, parts, links, node.target);
      StepLink(w, m', cur, parts, links, node.target);
      if links > 0 {
        RootIsDir(w, m);
        MountFrame(w, m, m', if node.target.absolute then [] else cur, node.target.parts + parts[1..], links - 1);
      }
    } else {
      StepPlain(w, m, cur, parts, links);
      StepPlain(w, m', cur, parts, links);
      MountFrame(w, m, m', next, parts[1..], links);
      FramedPrefix(w, m, m', Walk(w, m, next, parts[1..], links), Via(w, m, next, parts[1..], links),
        Walk(w, m', next, parts[1..], links), Via(w, m', next, parts[1..], links), Entered(w, cur, parts[0]));
    }
  }

  // ------------------------------------------------------------------ resolution beside other requests

  lemma NowIsLater(w: World, m: Mounts, others: Others)
    requires m.Sound(w) && Real(w, others)
    ensures Now(m, others).Sound(w) && m.Within(Now(m, others)) && Real(w, Later(others))
  {
    var rest := Later(others);
    forall i | 0 <= i < |rest|
      ensures rest[i].live <= w.images.Keys && rest[i].listed <= w.images.Keys
    {
      assert rest[i] == others[i + 1];
    }
  }

  /** Where the walk ends at once, it ends as in the mounts it then sees. */
  lemma EndsAtOnce(w: World, m: Mounts, others: Others, cur: Path, parts: seq<string>, links: nat)
    requires var live := Now(m, others).live;
      || parts == [] || !IsDir(w, live, cur)
      || (parts[0] != ".." && Lstat(w, live, cur + [parts[0]]) == None)
      || (parts[0] != ".." && links == 0 && Lstat(w, live, cur + [parts[0]]).value.Link?)
    ensures var look := WalkBeside(w, m, others, cur, parts, links);
      && look.seen == (if parts == [] then m else Now(m, others))
      && look.res == Walk(w, look.seen.live, cur, parts, links)
  {
  }

  lemma BesideUp(w: World, m: Mounts, others: Others, cur: Path, parts: seq<string>, links: nat)
    requires parts != [] && parts[0] == ".." && IsDir(w, Now(m, others).live, cur)
    ensures WalkBeside(w, m, others, cur, parts, links)
         == WalkBeside(w, Now(m, others), Later(others), Parent(cur), parts[1..], links)
  {
  }

  lemma BesideLink(w: World, m: Mounts, others: Others, cur: Path, parts: seq<string>, links: nat, left: nat,
          t: PathName)
    requires parts != [] && parts[0] != ".." && links == left + 1 && IsDir(w, Now(m, others).live, cur)
    requires Lstat(w, Now(m, others).live, cur + [parts[0]]) == Some(Link(t))
    ensures WalkBeside(w, m, others, cur, parts, links)
         == WalkBeside(w, Now(m, others), Later(others), if t.absolute then [] else cur, t.parts + parts[1..], left)
  {
  }

  lemma BesidePlain(w: World, m: Mounts, others: Others, cur: Path, parts: seq<string>, links: nat)
    requires parts != [] && parts[0] != ".." && IsDir(w, Now(m, others).live, cur)
    requires var node := Lstat(w, Now(m, others).live, cur + [parts[0]]); node.Some? && !node.value.Link?
    ensures WalkBeside(w, m, others, cur, parts, links)
         == WalkBeside(w, Now(m, others), Later(others), cur + [parts[0]], parts[1..], links)
  {
  }

  /** The look is one resolution in one namespace at least as full as `m`. */
  ghost predicate InOneNamespace(w: World, m: Mounts, look: Look, cur: Path, parts: seq<string>, links: nat) {
    m.Within(look.seen) && look.seen.Sound(w) && look.res == Walk(w, look.seen.live, cur, parts, links)
  }

  lemma UpFromHere(w: World, m: Mounts, now: Mounts, look: Look, cur: Path, parts: seq<string>, links: nat)
    requires Valid(w) && m.Within(now) && parts != [] && parts[0] == ".." && IsDir(w, now.live, cur)
    requires InOneNamespace(w, now, look, Parent(cur), parts[1..], links)
    ensures InOneNamespace(w, m, look, cur, parts, links)
  {
    LstatMonotone(w, now.live, look.seen.live, cur);
    StepUp(w, look.seen.live, cur, parts, links);
  }

  lemma LinkFromHere(w: World, m: Mounts, now: Mounts, look: Look, cur: Path, parts: seq<string>, links: nat, left: nat,
          t: PathName)
    requires Valid(w) && m.Within(now) && links == left + 1 && parts != [] && parts[0] != ".."
        && IsDir(w, now.live, cur)
    requires Lstat(w, now.live, cur + [parts[0]]) == Some(Link(t))
    requires InOneNamespace(w, now, look, if t.absolute then [] else cur, t.parts + parts[1..], left)
    ensures InOneNamespace(w, m, look, cur, parts, links)
  {
    LstatMonotone(w, now.live, look.seen.live, cur);
    LstatMonotone(w, now.live, look.seen.live, cur + [parts[0]]);
    StepLink(w, look.seen.live, cur, parts, links, t);
  }

  lemma PlainFromHere(w: World, m: Mounts, now: Mounts, look: Look, cur: Path, parts: seq<string>, links: nat)
    requires Valid(w) && m.Within(now) && parts != [] && parts[0] != ".." && IsDir(w, now.live, cur)
    requires var node := Lstat(w, now.live, cur + [parts[0]]); node.Some? && !node.value.Link?
    requires InOneNamespace(w, now, look, cur + [parts[0]], parts[1..], links)
    ensures InOneNamespace(w, m, look, cur, parts, links)
  {
    LstatMonotone(w, now.live, look.seen.live, cur);
    LstatMonotone(w, now.live, look.seen.live, cur + [parts[0]]);
    StepPlain(w, look.seen.live, cur, parts, links);
  }

  /** The kernel's open beside other requests is an open in one namespace, that of its last lookup. */
  lemma {:induction false} OpenAtOnce(w: World, m: Mounts, others: Others, cur: Path, parts: seq<string>, links: nat)
    requires Valid(w) && m.Sound(w) && Real(w, others) && Lstat(w, m.live, cur).Some?
    ensures InOneNamespace(w, m, WalkBeside(w, m, others, cur, parts, links), cur, parts, links)
    decreases links, |parts|, 1
  {
    var now := Now(m, others);
    NowIsLater(w, m, others);
    LstatMonotone(w, m.live, now.live, cur);
    if parts == [] || !IsDir(w, now.live, cur) {
      EndsAtOnce(w, m, others, cur, parts, links);
    } else if parts[0] == ".." {
      OpensUpAtOnce(w, m, others, cur, parts, links);
    } else {
      var node := Lstat(w, now.live, cur + [parts[0]]);
      if node == None || (links == 0 && node.value.Link?) {
        EndsAtOnce(w, m, others, cur, parts, links);
      } else if node.value.Link? {
        OpensLinkAtOnce(w, m, others, cur, parts, links, node.value.target);
      } else {
        OpensPlainAtOnce(w, m, others, cur, parts, links);
      }
    }
  }

  lemma {:induction false} OpensUpAtOnce(w: World, m: Mounts, others: Others, cur: Path, parts: seq<string>, links: nat)
    requires Valid(w) && m.Sound(w) && Real(w, others)
    requires parts != [] && parts[0] == ".." && IsDir(w, Now(m, others).live, cur)
    ensures InOneNamespace(w, m, WalkBeside(w, m, others, cur, parts, links), cur, parts, links)
    decreases links, |parts|, 0
  {
    var now, rest := Now(m, others), Later(others);
    NowIsLater(w, m, others);
    BesideUp(w, m, others, cur, parts, links);
    if Lstat(w, now.live, Parent(cur)).Some? {
      OpenAtOnce(w, now, rest, Parent(cur), parts[1..], links);
    } else {
      NowIsLater(w, now, rest);
      ParentStays(w, now.live, Now(now, rest).live, cur);
      EndsAtOnce(w, now, rest, Parent(cur), parts[1..], links);
    }
    UpFromHere(w, m, now, WalkBeside(w, m, others, cur, parts, links), cur, parts, links);
  }

  lemma {:induction false} OpensLinkAtOnce(w: World, m: Mounts, others: Others, cur: Path, parts: seq<string>,
          links: nat,
          t: PathName)
    requires Valid(w) && m.Sound(w) && Real(w, others) && links > 0
    requires parts != [] && parts[0] != ".." && IsDir(w, Now(m, others).live, cur)
    requires Lstat(w, Now(m, others).live, cur + [parts[0]]) == Some(Link(t))
    ensures InOneNamespace(w, m, WalkBeside(w, m, others, cur, parts, links), cur, parts, links)
    decreases links, |parts|, 0
  {
    var now, left := Now(m, others), links - 1;
    NowIsLater(w, m, others);
    RootIsDir(w, now.live);
    BesideLink(w, m, others, cur, parts, links, left, t);
    OpenAtOnce(w, now, Later(others), if t.absolute then [] else cur, t.parts + parts[1..], left);
    LinkFromHere(w, m, now, WalkBeside(w, m, others, cur, parts, links), cur, parts, links, left, t);
  }

  lemma {:induction false} OpensPlainAtOnce(w: World, m: Mounts, others: Others, cur: Path, parts: seq<string>,
          links: nat)
    requires Valid(w) && m.Sound(w) && Real(w, others)
    requires parts != [] && parts[0] != ".." && IsDir(w, Now(m, others).live, cur)
    requires var node := Lstat(w, Now(m, others).live, cur + [parts[0]]); node.Some? && !node.value.Link?
    ensures InOneNamespace(w, m, WalkBeside(w, m, others, cur, parts, links), cur, parts, links)
    decreases links, |parts|, 0
  {
    var now := Now(m, others);
    NowIsLater(w, m, others);
    BesidePlain(w, m, others, cur, parts, links);
    OpenAtOnce(w, now, Later(others), cur + [parts[0]], parts[1..], links);
    PlainFromHere(w, m, now, WalkBeside(w, m, others, cur, parts, links), cur, parts, links);
  }
}
