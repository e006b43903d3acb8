/** Which link targets can mislead `missingFor`: exactly those in which some ".." does not lead. For each of them there
    is a namespace in which that one link makes `Open` answer not-found for a path that resolves. */
module LazyLimits {
  import opened LazyStore
  import opened LazyTraps
  import opened Namespace
  import opened Options
  import opened Paths
  import opened StoreNames
  import opened StoreWalk

  /** Every link of the namespace but those with this target has its ".." in front. */
  ghost predicate OnlyLink(w: World, t: PathName) {
    forall m, at :: Lstat(w, m, at).Some? ==> LeadsBut(t, Lstat(w, m, at).value)
  }

  /** `path` resolves, the kernel stops at a store path that is not mounted, and `missingFor` does not name it. */
  ghost predicate Misled(w: World, path: Path, t: PathName) {
    && Valid(w) && OnlyLink(w, t) && AllOrdinary(path)
    && Eager(w, path).Found?
    && Stuck(w, {}, KernelOpen(w, {}, path))
    && Lost(w, {}, [], path)
  }

  /** The first ".." behind an ordinary component. */
  lemma {:induction false} CutNames(parts: seq<string>, j: nat) returns (names: seq<string>, rest: seq<string>)
    requires TidyTarget(PathName(true, parts)) && 0 < j < |parts| && Ordinary(parts[0]) && parts[j] == ".."
    ensures names != [] && AllOrdinary(names) && parts == names + [".."] + rest
  {
    if parts[1] == ".." {
      names, rest := [parts[0]], parts[2..];
    } else {
      var more, rest' := CutNames(parts[1..], j - 1);
      names, rest := [parts[0]] + more, rest';
      assert parts == [parts[0]] + parts[1..];
    }
  }

  lemma DotsBehind(parts: seq<string>) returns (j: nat)
    requires !DotsLead(parts) && parts[0] != ".."
    ensures 0 < j < |parts| && parts[j] == ".."
  {
    var i, k :| 0 <= i < k < |parts| && Ordinary(parts[i]) && parts[k] == "..";
    j := k;
  }

  lemma StillNotLeading(parts: seq<string>)
    requires !DotsLead(parts) && parts[0] == ".."
    ensures !DotsLead(parts[1..])
  {
    var i, j :| 0 <= i < j < |parts| && Ordinary(parts[i]) && parts[j] == "..";
    assert parts[1..][i - 1] == parts[i] && parts[1..][j - 1] == parts[j];
  }

  lemma {:induction false} CutTarget(parts: seq<string>)
    returns (dots: seq<string>, names: seq<string>, rest: seq<string>)
    requires TidyTarget(PathName(true, parts)) && !DotsLead(parts)
    ensures forall i :: 0 <= i < |dots| ==> dots[i] == ".."
    ensures names != [] && AllOrdinary(names) && parts == dots + (names + [".."] + rest)
  {
    if parts[0] == ".." {
      StillNotLeading(parts);
      var more, names', rest' := CutTarget(parts[1..]);
      dots, names, rest := [".."] + more, names', rest';
      assert parts == [".."] + parts[1..];
    } else {
      var j := DotsBehind(parts);
      dots := [];
      names, rest := CutNames(parts, j);
    }
  }

  lemma RestIsTidy(dots: seq<string>, names: seq<string>, rest: seq<string>)
    requires TidyTarget(PathName(true, dots + names + [".."] + rest))
    ensures TidyTarget(PathName(true, rest))
  {
    var parts := dots + names + [".."] + rest;
    forall i | 0 <= i < |rest| ensures rest[i] == ".." || Ordinary(rest[i]) {
      assert parts[|dots| + |names| + 1 + i] == rest[i];
    }
  }

  /** Three names that neither a target nor the mount root uses. */
  lemma ThreeNames(known: seq<string>) returns (own: seq<string>)
    ensures |own| == 3 && (forall i :: 0 <= i < 3 ==> Ordinary(own[i]) && own[i] !in known)
    ensures own[0] != own[1] && own[0] != own[2] && own[1] != own[2]
  {
    FreshIsNew(known, 0);
    FreshIsNew(known, 1);
    FreshIsNew(known, 2);
    own := [Fresh(known, 0), Fresh(known, 1), Fresh(known, 2)];
  }

  /** The mount root is not at the top, and the target names nothing there that leads to it. */
  predicate OffTheRoot(root: Path, t: PathName) {
    root != [] && AllOrdinary(root) && root[0] !in t.parts
  }

  /** A target whose ".." do not lead can be laid out as a trap. */
  lemma TrapFor(root: Path, t: PathName, image: string) returns (p: Trap)
    requires TidyTarget(t) && OffTheRoot(root, t) && !DotsLead(t.parts)
    ensures p.Valid() && p.Target() == t && p.image == image && p.root == root
  {
    var dots, names, rest := CutTarget(t.parts);
    assert t.parts == dots + names + [".."] + rest;
    RestIsTidy(dots, names, rest);
    assert forall c :: c in names + rest ==> c in t.parts;
    var own := ThreeNames(names + rest + root);
    assert root[0] in names + rest + root;
    var deep := seq(|rest| + 2, _ => own[0]);
    p := Trap(t.absolute, dots, names, rest, image, root, own[0], own[1], own[2], deep);
    TrapIsValid(p);
  }

  lemma TrapIsValid(p: Trap)
    requires forall i :: 0 <= i < |p.dots| ==> p.dots[i] == ".."
    requires p.names != [] && AllOrdinary(p.names) && TidyTarget(PathName(true, p.rest))
    requires |p.deep| == |p.rest| + 2 && forall i :: 0 <= i < |p.deep| ==> p.deep[i] == p.floor
    requires p.root != [] && AllOrdinary(p.root)
    requires forall c :: c in p.Own() ==> Ordinary(c) && c !in p.names + p.rest
    requires p.root[0] !in [p.floor, p.entry, p.exit] && p.floor != p.entry && p.floor != p.exit && p.entry != p.exit
    ensures p.Valid()
  {
  }

  lemma NoOtherLink(w: World, t: PathName)
    requires forall at :: at in w.host ==> LeadsBut(t, w.host[at])
    requires forall n, at :: n in w.images && at in w.images[n] ==> !w.images[n][at].Link?
    ensures OnlyLink(w, t)
  {
  }

  lemma TrapHasOneLink(p: Trap)
    requires p.Valid() && Ordinary(p.image)
    ensures OnlyLink(Snare(p), p.Target())
  {
    HostIsTidy(p);
    ImagesAre(p);
    NoOtherLink(Snare(p), p.Target());
  }

  lemma SnareLeads(w: World, m: set<string>, p: Trap)
    requires p.Valid() && Ordinary(p.image) && IsSnare(w, m, p)
    ensures var path, at := [p.entry, p.exit], p.root + [p.image];
      && AllOrdinary(path) && Lost(w, m, [], path)
      && KernelOpen(w, m, path) == if p.image in m then Found(at) else NoEnt(at)
  {
    OwnNames(p);
    KernelReaches(w, m, p, KERNEL_LINKS);
    NothingIsMissing(w, m, p);
  }

  lemma SnareIsStuck(w: World, image: string)
    requires Canonical(image)
    ensures Stuck(w, {}, NoEnt(w.root + [image]))
  {
    assert (w.root + [image])[..|w.root|] == w.root;
  }

  lemma TrapMisleads(p: Trap)
    requires p.Valid() && Canonical(p.image)
    ensures Misled(Snare(p), [p.entry, p.exit], p.Target())
  {
    StoreNameIsOrdinary(p.image);
    SnareIsValid(p);
    TrapHasOneLink(p);
    ImagesAre(p);
    SnareHasImage(Snare(p), p, {});
    SnareHasImage(Snare(p), p, {p.image});
    SnareIsSnare(p, {});
    SnareIsSnare(p, {p.image});
    SnareIsStuck(Snare(p), p.image);
    SnareLeads(Snare(p), {}, p);
    SnareLeads(Snare(p), {p.image}, p);
    assert Snare(p).images.Keys == {p.image};
  }

  /** There is a name that a store path can have. */
  lemma SomeName() returns (name: string)
    ensures Canonical(name)
  {
    var hash := seq(HASH_LENGTH, _ => '0');
    assert NIX_BASE32[0] == '0';
    HashIsName(hash, "-source");
    name := hash + "-source";
  }

  lemma HashIsName(hash: string, suffix: string)
    requires IsHash(hash) && suffix != "" && suffix[0] == '-'
    ensures Canonical(hash + suffix)
  {
    var name := hash + suffix;
    forall i | 0 <= i < |hash| ensures hash[i] != '-' {
      LowerKeepsDigit(hash[i]);
    }
    assert name[..|hash|] == hash && name[|hash|] == '-' && name[|hash|..] == suffix;
    IndexOfIs(name, '-', |hash|);
    LowerKeepsHash(hash);
  }

  lemma {:induction false} AllLinksLead(w: World, t: PathName, m: set<string>, cur: Path, parts: seq<string>,
          links: nat)
    requires OnlyLink(w, t) && DotsLead(t.parts)
    ensures DotsLeadOn(w, m, cur, parts, links)
    decreases links, |parts|
  {
    if parts != [] && IsDir(w, m, cur) && Lstat(w, m, cur + [parts[0]]).Some? {
      var node := Lstat(w, m, cur + [parts[0]]).value;
      if !node.Link? {
        AllLinksLead(w, t, m, cur + [parts[0]], parts[1..], links);
      } else if links > 0 {
        assert LeadsBut(t, node);
        AllLinksLead(w, t, m, [], Splice(cur, node.target) + parts[1..], links - 1);
      }
    }
  }

  /** Where all ".." lead, `missingFor` names the store path that the kernel stopped at, given fuel enough. */
  lemma LeadingIsNeverMisled(w: World, path: Path, t: PathName)
    requires Valid(w) && AllOrdinary(path) && OnlyLink(w, t) && DotsLead(t.parts)
    requires Stuck(w, {}, KernelOpen(w, {}, path))
    ensures !Lost(w, {}, [], path)
  {
    var fuel := Scan(w, {}, [], path, KERNEL_LINKS).steps;
    ReachedRoot(w, {});
    AllLinksLead(w, t, {}, [], path, KERNEL_LINKS);
    ScanIsWalk(w, {}, [], path, KERNEL_LINKS);
    MissingNamesTheGap(w, {}, [], path, KERNEL_LINKS, fuel);
    assert Missing(w, {}, [], path, fuel).Some?;
  }

  /** Whatever the mount root, exactly the targets in which some ".." does not lead can mislead `missingFor`: there is a
      namespace where every other link is harmless, and the one with this target hides a store path from it. */
  lemma DotsMustLead(root: Path, t: PathName)
    requires TidyTarget(t) && OffTheRoot(root, t)
    ensures (exists w: World, path: Path :: w.root == root && Misled(w, path, t)) <==> !DotsLead(t.parts)
  {
    if DotsLead(t.parts) {
      forall w: World, path: Path | w.root == root ensures !Misled(w, path, t) {
        if Valid(w) && AllOrdinary(path) && OnlyLink(w, t) && Stuck(w, {}, KernelOpen(w, {}, path)) {
          LeadingIsNeverMisled(w, path, t);
        }
      }
    } else {
      var name := SomeName();
      var p := TrapFor(root, t, name);
      TrapMisleads(p);
    }
  }

  /** And then `Open` answers not-found, at its first hop, for a path that resolves. */
  lemma MisledIsNotFound(w: World, path: Path, t: PathName, others: seq<Interference>)
    requires Misled(w, path, t) && others != [] && Alone(Mounts({}, {}), others)
    ensures Lazy(w, Mounts({}, {}), path, w.images.Keys, others) == Run(NotFound, 0, [])
  {
    QuietPass(w, Mounts({}, {}), path, others[0]);
    assert Missing(w, {}, [], path, MAX_RESOLVE_STEPS) == None;
    LazyUnfolds(w, Mounts({}, {}), path, w.images.Keys, others);
  }
}
