/** A namespace in which one link misleads `missingFor`: the walk cleans the link's target lexically, while the kernel
    climbs out of wherever the target's earlier components led. Any target in which some ".." does not lead can be laid
    out like this. */
module LazyTraps {
  import opened LazyStore
  import opened Namespace
  import opened Options
  import opened Paths
  import opened StoreNames
  import opened StoreWalk

  // ------------------------------------------------------------------ names that a target does not use

  function Longest(parts: seq<string>): nat {
    if parts == [] then 0
    else
      var rest := Longest(parts[1..]);
      if |parts[0]| > rest then |parts[0]| else rest
  }

  lemma {:induction false} LongerIsNew(parts: seq<string>, c: string)
    requires |c| > Longest(parts)
    ensures c !in parts
  {
    if parts == [] {
    } else {
      LongerIsNew(parts[1..], c);
      assert parts == [parts[0]] + parts[1..];
    }
  }

  /** The k-th of a supply of ordinary names, all different and none of them among `parts`. */
  function Fresh(parts: seq<string>, k: nat): string {
    seq(Longest(parts) + 2 + k, _ => 'z')
  }

  lemma FreshIsNew(parts: seq<string>, k: nat)
    ensures Fresh(parts, k) !in parts && Ordinary(Fresh(parts, k))
    ensures forall l: nat :: l != k ==> Fresh(parts, l) != Fresh(parts, k)
  {
    LongerIsNew(parts, Fresh(parts, k));
    assert Fresh(parts, k)[0] == 'z';
    forall l: nat | l != k ensures Fresh(parts, l) != Fresh(parts, k) {
      assert |Fresh(parts, l)| != |Fresh(parts, k)|;
    }
  }

  // ------------------------------------------------------------------ the trap

  /** A target cut at its first ".." behind an ordinary component: some "..", then `names`, that "..", and the rest.
      The link with the target stands at /entry; the kernel ends up where a link called `exit` stands. The mount root is
      any directory that is not reached by way of a name in the target. */
  datatype Trap = Trap(absolute: bool, dots: seq<string>, names: seq<string>, rest: seq<string>, image: string,
                       root: Path, floor: string, entry: string, exit: string, deep: Path) {

    ghost predicate Valid() {
      && (forall i :: 0 <= i < |dots| ==> dots[i] == "..")
      && names != [] && AllOrdinary(names)
      && (forall i :: 0 <= i < |rest| ==> rest[i] == ".." || Ordinary(rest[i]))
      && root != [] && AllOrdinary(root)
      && (forall c :: c in Own() ==> Ordinary(c) && c !in names && c !in rest)
      && root[0] !in [floor, entry, exit] && floor != entry && floor != exit && entry != exit
      && |deep| == |rest| + 2 && forall i :: 0 <= i < |deep| ==> deep[i] == floor
    }

    function Own(): seq<string>
      requires root != []
    {
      [root[0], floor, entry, exit]
    }

    function Target(): PathName { PathName(absolute, dots + names + [".."] + rest) }

    /** Where the kernel is after k components of the rest. */
    function Spot(k: nat): Path
      requires k <= |rest| && deep != []
    {
      Clean(true, Parent(deep), rest[..k])
    }

    function End(): Path
      requires deep != []
    {
      Spot(|rest|)
    }
  }

  // ------------------------------------------------------------------ where the rest of the target leads

  /** After `climbs` components: floors below, names of the rest on top of them, and never as many floors as in Deep. */
  ghost predicate SpotShape(floor: string, rest: seq<string>, s: Path, climbs: nat) {
    && |s| + climbs >= |rest| + 1
    && (forall i :: 0 <= i < |s| ==> (s[i] == floor && i < |rest| + 1) || (s[i] in rest && i + climbs >= |rest| + 1))
    && AllOrdinary(s)
  }

  lemma CleanNext(base: Path, rest: seq<string>, k: nat)
    requires k < |rest|
    ensures Clean(true, base, rest[..k + 1]) == Push(true, Clean(true, base, rest[..k]), rest[k])
  {
    assert rest[..k + 1] == rest[..k] + [rest[k]];
    CleanAppend(true, base, rest[..k], [rest[k]]);
    var s := Clean(true, base, rest[..k]);
    assert [rest[k]][1..] == [];
    assert Clean(true, s, [rest[k]]) == Clean(true, Push(true, s, rest[k]), []);
  }

  lemma FloorsAreShaped(floor: string, rest: seq<string>, s: Path)
    requires |s| == |rest| + 1 && Ordinary(floor) && forall i :: 0 <= i < |s| ==> s[i] == floor
    ensures SpotShape(floor, rest, s, 0)
  {
  }

  lemma {:induction false} CleanIsShaped(floor: string, base: Path, rest: seq<string>, k: nat)
    requires SpotShape(floor, rest, base, 0) && TidyTarget(PathName(true, rest)) && k <= |rest|
    ensures SpotShape(floor, rest, Clean(true, base, rest[..k]), k)
  {
    if k == 0 {
      assert rest[..0] == [];
    } else {
      CleanIsShaped(floor, base, rest, k - 1);
      CleanNext(base, rest, k - 1);
      PushKeepsShape(floor, rest, Clean(true, base, rest[..k - 1]), k - 1);
    }
  }

  lemma SpotIs(p: Trap, k: nat)
    requires p.Valid() && k <= |p.rest|
    ensures SpotShape(p.floor, p.rest, p.Spot(k), k)
  {
    assert p.floor in p.Own();
    FloorsAreShaped(p.floor, p.rest, Parent(p.deep));
    CleanIsShaped(p.floor, Parent(p.deep), p.rest, k);
  }

  lemma PushKeepsShape(floor: string, rest: seq<string>, s: Path, k: nat)
    requires k < |rest| && SpotShape(floor, rest, s, k) && (rest[k] == ".." || Ordinary(rest[k]))
    ensures SpotShape(floor, rest, Push(true, s, rest[k]), k + 1)
  {
    if rest[k] == ".." {
      assert s == [] || s[|s| - 1] != "..";
      PopKeepsShape(floor, rest, s, k);
    } else {
      assert rest[k] in rest;
    }
  }

  lemma PopKeepsShape(floor: string, rest: seq<string>, s: Path, k: nat)
    requires k < |rest| && SpotShape(floor, rest, s, k)
    ensures SpotShape(floor, rest, Parent(s), k + 1)
  {
  }

  // ------------------------------------------------------------------ the namespace

  ghost function DeepPlaces(p: Trap): set<Path> {
    set j | 0 <= j <= |p.deep| :: p.deep[..j]
  }

  ghost function NamePlaces(p: Trap): set<Path> {
    set k | 0 <= k < |p.names| :: p.names[..k]
  }

  ghost function SpotPlaces(p: Trap): set<Path>
    requires p.deep != []
  {
    set k | 0 <= k <= |p.rest| :: p.Spot(k)
  }

  ghost function RootPlaces(p: Trap): set<Path> {
    set i | 0 <= i <= |p.root| :: p.root[..i]
  }

  ghost function Places(p: Trap): set<Path>
    requires p.deep != []
  {
    DeepPlaces(p) + NamePlaces(p) + SpotPlaces(p) + RootPlaces(p) + {[p.entry], p.names, p.End() + [p.exit]}
  }

  function NodeAt(p: Trap, at: Path): Node
    requires p.deep != []
  {
    if at == [p.entry] then Link(p.Target())
    else if at == p.names then Link(PathName(true, p.deep))
    else if at == p.End() + [p.exit] then Link(PathName(true, p.root + [p.image]))
    else Dir
  }

  /** /Entry -> the target; /names -> /Deep; at the end of the target, Exit -> the store path /Root/image. */
  ghost function Snare(p: Trap): World
    requires p.deep != []
  {
    World(p.root, map at | at in Places(p) :: NodeAt(p, at), map[p.image := map[[] := Dir]])
  }

  /** Deep and the names are chains of directories, and the names end at a link to Deep. */
  ghost predicate HasChains(w: World, m: set<string>, p: Trap) {
    && (forall j :: 0 <= j <= |p.deep| ==> IsDir(w, m, p.deep[..j]))
    && (forall k :: 0 <= k < |p.names| ==> IsDir(w, m, p.names[..k]))
    && Lstat(w, m, p.names) == Some(Link(PathName(true, p.deep)))
  }

  ghost predicate HasSpots(w: World, m: set<string>, p: Trap)
    requires p.deep != []
  {
    && (forall k :: 0 <= k <= |p.rest| ==> IsDir(w, m, p.Spot(k)))
    && Physical(w, m, p.root)
  }

  ghost predicate HasLinks(w: World, m: set<string>, p: Trap)
    requires p.deep != []
  {
    && Lstat(w, m, [p.entry]) == Some(Link(p.Target()))
    && Lstat(w, m, p.End() + [p.exit]) == Some(Link(PathName(true, p.root + [p.image])))
    && Lstat(w, m, p.root + [p.image]) == (if p.image in m then Some(Dir) else None)
  }

  /** A component that is still to come when `missingFor` has spliced the target in. */
  predicate Ahead(p: Trap, c: string) {
    c in p.names || c in p.rest || c == p.exit
  }

  ghost predicate HasGaps(w: World, m: set<string>, p: Trap) {
    && (forall c :: Ahead(p, c) ==> Lstat(w, m, p.deep + [c]) == None)
    && (forall k, c :: 0 <= k < |p.names| && Ahead(p, c) && c != p.names[k] ==> Lstat(w, m, p.names[..k] + [c]) == None)
  }

  /** What resolution can meet in it. */
  ghost predicate IsSnare(w: World, m: set<string>, p: Trap)
    requires p.deep != []
  {
    w.root == p.root && HasChains(w, m, p) && HasSpots(w, m, p) && HasLinks(w, m, p) && HasGaps(w, m, p)
  }

  // ------------------------------------------------------------------ what stands where

  /** Where a place of the namespace can be. */
  ghost predicate PlaceShape(p: Trap, at: Path) {
    || at <= p.deep
    || (at != [] && at[0] == p.floor && !(p.deep <= at))
    || (|at| < |p.names| && at <= p.names)
    || at <= p.root || at == [p.entry] || at == p.names
  }

  /** No floor at the last level of Deep. */
  lemma NotDeep(floor: string, rest: seq<string>, s: Path, climbs: nat, deep: Path)
    requires SpotShape(floor, rest, s, climbs) && floor !in rest
    requires |deep| == |rest| + 2 && deep[|rest| + 1] == floor
    ensures !(deep <= s)
    ensures forall c :: c != floor ==> !(deep <= s + [c])
  {
    forall c | c != floor ensures !(deep <= s + [c]) {
      if |rest| + 1 < |s| {
        assert (s + [c])[|rest| + 1] == s[|rest| + 1] != floor;
      }
    }
  }

  lemma SpotIsShaped(p: Trap, k: nat)
    requires p.Valid() && k <= |p.rest|
    ensures var s := p.Spot(k);
      && s != [] && s[0] == p.floor && !(p.deep <= s) && !(p.deep <= s + [p.exit])
      && AllOrdinary(s) && p.exit !in s
  {
    SpotIs(p, k);
    assert p.floor in p.Own() && p.exit in p.Own();
    NotDeep(p.floor, p.rest, p.Spot(k), k, p.deep);
  }

  lemma DeepIsShaped(p: Trap, at: Path)
    requires at in DeepPlaces(p)
    ensures at <= p.deep
  {
  }

  lemma NameIsShaped(p: Trap, at: Path)
    requires at in NamePlaces(p)
    ensures |at| < |p.names| && at <= p.names
  {
  }

  lemma PlacesAreShaped(p: Trap, at: Path)
    requires p.Valid() && at in Places(p)
    ensures PlaceShape(p, at)
  {
    if at in DeepPlaces(p) {
      DeepIsShaped(p, at);
    } else if at in NamePlaces(p) {
      NameIsShaped(p, at);
    } else if at in RootPlaces(p) {
      RootIsShaped(p, at);
    } else if at in SpotPlaces(p) {
      var k :| 0 <= k <= |p.rest| && at == p.Spot(k);
      SpotIsShaped(p, k);
    } else {
      SpotIsShaped(p, |p.rest|);
    }
  }

  ghost predicate Stands(w: World, m: set<string>, p: Trap)
    requires p.deep != [] && p.root != []
  {
    && w.root == p.root
    && (forall at {:trigger Lstat(w, m, at)} :: |at| <= |p.root| || at[0] != p.root[0] ==>
          Lstat(w, m, at) == if at in Places(p) then Some(NodeAt(p, at)) else None)
  }

  lemma SnareStands(p: Trap, m: set<string>)
    requires p.Valid()
    ensures Stands(Snare(p), m, p)
  {
    forall at: Path | |at| <= |p.root| || at[0] != p.root[0]
      ensures Lstat(Snare(p), m, at) == if at in Places(p) then Some(NodeAt(p, at)) else None
    {
      if |at| > |p.root| {
        assert at[..|p.root|][0] == at[0];
      }
    }
  }

  lemma SnareHasImage(w: World, p: Trap, m: set<string>)
    requires w.root == p.root && Canonical(p.image) && w.images == map[p.image := map[[] := Dir]]
    ensures Lstat(w, m, p.root + [p.image]) == if p.image in m then Some(Dir) else None
  {
    var at := p.root + [p.image];
    assert at[..|p.root|] == p.root && at[|p.root|] == p.image && at[|p.root| + 1..] == [];
    assert InImage(w, at);
  }

  lemma OwnNames(p: Trap)
    requires p.Valid()
    ensures forall c :: c in p.names || c in p.rest ==> c != p.root[0] && c != p.floor && c != p.entry && c != p.exit
    ensures Ordinary(p.root[0]) && Ordinary(p.floor) && Ordinary(p.entry) && Ordinary(p.exit)
    ensures p.names[0] in p.names && p.deep[0] == p.floor
  {
    assert p.root[0] in p.Own() && p.floor in p.Own() && p.entry in p.Own() && p.exit in p.Own();
  }

  /** A directory of the namespace: a place with none of the three links at it. */
  lemma IsDirHere(w: World, m: set<string>, p: Trap, at: Path)
    requires p.deep != [] && p.root != [] && Stands(w, m, p) && at in Places(p)
        && (|at| <= |p.root| || at[0] != p.root[0])
    requires at != [p.entry] && at != p.names && at != p.End() + [p.exit]
    ensures IsDir(w, m, at)
  {
  }

  lemma DeepIsDir(w: World, m: set<string>, p: Trap, j: nat)
    requires p.Valid() && Stands(w, m, p) && j <= |p.deep|
    ensures IsDir(w, m, p.deep[..j])
  {
    OwnNames(p);
    var at := p.deep[..j];
    assert at in DeepPlaces(p);
    assert at != [] ==> at[0] == p.floor;
    assert (p.End() + [p.exit])[|p.End()|] == p.exit;
    IsDirHere(w, m, p, at);
  }

  lemma NamesAreDirs(w: World, m: set<string>, p: Trap, k: nat)
    requires p.Valid() && Stands(w, m, p) && k < |p.names|
    ensures IsDir(w, m, p.names[..k])
  {
    OwnNames(p);
    var at := p.names[..k];
    assert at in NamePlaces(p);
    assert at != [] ==> at[0] == p.names[0];
    SpotIsShaped(p, |p.rest|);
    assert (p.End() + [p.exit])[0] == p.floor;
    IsDirHere(w, m, p, at);
  }

  lemma SpotsAreDirs(w: World, m: set<string>, p: Trap, k: nat)
    requires p.Valid() && Stands(w, m, p) && k <= |p.rest|
    ensures IsDir(w, m, p.Spot(k))
  {
    OwnNames(p);
    var at := p.Spot(k);
    assert at in SpotPlaces(p);
    SpotIsShaped(p, k);
    assert (p.End() + [p.exit])[|p.End()|] == p.exit;
    IsDirHere(w, m, p, at);
  }

  lemma SnareHasChains(w: World, m: set<string>, p: Trap)
    requires p.Valid() && Stands(w, m, p)
    ensures HasChains(w, m, p)
  {
    forall j | 0 <= j <= |p.deep| ensures IsDir(w, m, p.deep[..j]) {
      DeepIsDir(w, m, p, j);
    }
    forall k | 0 <= k < |p.names| ensures IsDir(w, m, p.names[..k]) {
      NamesAreDirs(w, m, p, k);
    }
    OwnNames(p);
  }

  lemma RootIsADirHere(w: World, m: set<string>, p: Trap, i: nat)
    requires p.Valid() && Stands(w, m, p) && i <= |p.root|
    ensures IsDir(w, m, p.root[..i])
  {
    OwnNames(p);
    var at := p.root[..i];
    assert at in RootPlaces(p);
    assert at != [] ==> at[0] == p.root[0];
    SpotIsShaped(p, |p.rest|);
    assert (p.End() + [p.exit])[0] == p.floor;
    IsDirHere(w, m, p, at);
  }

  lemma RootIsShaped(p: Trap, at: Path)
    requires at in RootPlaces(p)
    ensures at <= p.root
  {
  }

  lemma SnareHasSpots(w: World, m: set<string>, p: Trap)
    requires p.Valid() && Stands(w, m, p)
    ensures HasSpots(w, m, p)
  {
    forall k | 0 <= k <= |p.rest| ensures IsDir(w, m, p.Spot(k)) {
      SpotsAreDirs(w, m, p, k);
    }
    OwnNames(p);
    SpotIsShaped(p, |p.rest|);
    forall i | 0 <= i <= |p.root| ensures IsDir(w, m, p.root[..i]) {
      RootIsADirHere(w, m, p, i);
    }
  }

  predicate HasOrLacks(w: World, m: set<string>, root: Path, image: string) {
    Lstat(w, m, root + [image]) == if image in m then Some(Dir) else None
  }

  predicate HasImage(w: World, m: set<string>, p: Trap) {
    HasOrLacks(w, m, p.root, p.image)
  }

  lemma SnareHasLinks(w: World, m: set<string>, p: Trap)
    requires p.Valid() && Stands(w, m, p) && HasImage(w, m, p)
    ensures HasLinks(w, m, p)
  {
    OwnNames(p);
    SpotIsShaped(p, |p.rest|);
    assert (p.End() + [p.exit])[0] == p.floor;
  }

  lemma NothingBelowDeep(w: World, m: set<string>, p: Trap, c: string)
    requires p.Valid() && Stands(w, m, p) && Ahead(p, c)
    ensures Lstat(w, m, p.deep + [c]) == None
  {
    OwnNames(p);
    var at := p.deep + [c];
    assert at[0] == p.floor && p.deep <= at;
    if at in Places(p) {
      PlacesAreShaped(p, at);
    }
  }

  lemma NothingBesideNames(w: World, m: set<string>, p: Trap, k: nat, c: string)
    requires p.Valid() && Stands(w, m, p) && k < |p.names| && Ahead(p, c) && c != p.names[k]
    ensures Lstat(w, m, p.names[..k] + [c]) == None
  {
    OwnNames(p);
    var at := p.names[..k] + [c];
    assert at[k] == c && at[0] == if k == 0 then c else p.names[0];
    if at in Places(p) {
      PlacesAreShaped(p, at);
    }
  }

  lemma SnareHasGaps(w: World, m: set<string>, p: Trap)
    requires p.Valid() && Stands(w, m, p)
    ensures HasGaps(w, m, p)
  {
    forall c | Ahead(p, c) ensures Lstat(w, m, p.deep + [c]) == None {
      NothingBelowDeep(w, m, p, c);
    }
    forall k, c | 0 <= k < |p.names| && Ahead(p, c) && c != p.names[k] ensures Lstat(w, m, p.names[..k] + [c]) == None {
      NothingBesideNames(w, m, p, k, c);
    }
  }

  lemma StandsIsSnare(w: World, m: set<string>, p: Trap)
    requires p.Valid() && Stands(w, m, p) && HasImage(w, m, p)
    ensures IsSnare(w, m, p)
  {
    SnareHasChains(w, m, p);
    SnareHasSpots(w, m, p);
    SnareHasLinks(w, m, p);
    SnareHasGaps(w, m, p);
  }

  lemma SnareIsSnare(p: Trap, m: set<string>)
    requires p.Valid() && HasImage(Snare(p), m, p)
    ensures IsSnare(Snare(p), m, p)
  {
    SnareStands(p, m);
    StandsIsSnare(Snare(p), m, p);
  }

  // ------------------------------------------------------------------ it is a namespace

  lemma PlacesAreNoStorePaths(w: World, p: Trap, at: Path)
    requires p.Valid() && w.root == p.root && at in Places(p)
    ensures !Below(w, at)
  {
    OwnNames(p);
    PlacesAreShaped(p, at);
    if |at| > |p.root| {
      assert at[..|p.root|][0] == at[0];
    }
  }

  /** All its links but the one under test have their ".." in front. */
  ghost predicate LeadsBut(t: PathName, node: Node) {
    node.Link? ==> TidyTarget(node.target) && (node.target == t || DotsLead(node.target.parts))
  }

  lemma OrdinaryLeads(t: PathName, parts: seq<string>)
    requires AllOrdinary(parts)
    ensures LeadsBut(t, Link(PathName(true, parts)))
  {
  }

  lemma TargetIsTidy(p: Trap)
    requires p.Valid()
    ensures TidyTarget(p.Target())
  {
  }

  lemma NodesAre(p: Trap, at: Path)
    requires p.deep != [] && NodeAt(p, at).Link?
    ensures NodeAt(p, at).target in [p.Target(), PathName(true, p.deep), PathName(true, p.root + [p.image])]
  {
  }

  lemma NodesLead(p: Trap, at: Path)
    requires p.Valid() && Ordinary(p.image)
    ensures LeadsBut(p.Target(), NodeAt(p, at))
  {
    if NodeAt(p, at).Link? {
      NodesAre(p, at);
      OwnNames(p);
      TargetIsTidy(p);
      OrdinaryLeads(p.Target(), p.deep);
      OrdinaryLeads(p.Target(), p.root + [p.image]);
    }
  }

  lemma HostHas(w: World, at: Path)
    requires IsDir(w, {}, at) && |at| <= |w.root|
    ensures at in w.host && w.host[at] == Dir
  {
  }

  lemma RootStands(w: World, p: Trap)
    requires w.root == p.root && Physical(w, {}, p.root)
    ensures AllOrdinary(w.root) && forall i :: 0 <= i <= |w.root| ==>
        w.root[..i] in w.host && w.host[w.root[..i]] == Dir
  {
    forall i | 0 <= i <= |w.root| ensures w.root[..i] in w.host && w.host[w.root[..i]] == Dir {
      HostHas(w, w.root[..i]);
    }
  }

  lemma HostIs(p: Trap)
    requires p.deep != []
    ensures forall at :: at in Snare(p).host ==> at in Places(p) && Snare(p).host[at] == NodeAt(p, at)
  {
  }

  lemma HostIsTidy(p: Trap)
    requires p.Valid() && Ordinary(p.image)
    ensures var w := Snare(p);
      && TidyTree(w.host)
      && forall at :: at in w.host ==> StorePathOf(w, at) == None && LeadsBut(p.Target(), w.host[at])
  {
    var w := Snare(p);
    HostIs(p);
    forall at | at in w.host ensures StorePathOf(w, at) == None && LeadsBut(p.Target(), w.host[at]) {
      PlacesAreNoStorePaths(w, p, at);
      NodesLead(p, at);
    }
  }

  lemma SnareRootStands(p: Trap)
    requires p.Valid()
    ensures var w := Snare(p);
      AllOrdinary(w.root) && forall i :: 0 <= i <= |w.root| ==> w.root[..i] in w.host && w.host[w.root[..i]] == Dir
  {
    OwnNames(p);
    SnareStands(p, {});
    SnareHasChains(Snare(p), {}, p);
    SnareHasSpots(Snare(p), {}, p);
    RootStands(Snare(p), p);
  }

  lemma ImagesAre(p: Trap)
    requires p.deep != []
    ensures Snare(p).images == map[p.image := map[[] := Dir]]
    ensures TidyTree(Snare(p).images[p.image])
  {
  }

  lemma SnareIsValid(p: Trap)
    requires p.Valid() && Canonical(p.image)
    ensures Valid(Snare(p))
  {
    StoreNameIsOrdinary(p.image);
    SnareRootStands(p);
    HostIsTidy(p);
    ImagesAre(p);
  }

  // ------------------------------------------------------------------ where the kernel goes

  lemma {:induction false} WalkDots(w: World, m: set<string>, dots: seq<string>, parts: seq<string>, links: nat)
    requires IsDir(w, m, []) && forall i :: 0 <= i < |dots| ==> dots[i] == ".."
    ensures Walk(w, m, [], dots + parts, links) == Walk(w, m, [], parts, links)
    decreases |dots|
  {
    var all := dots + parts;
    if dots == [] {
      assert all == parts;
    } else {
      assert all[0] == ".." && all[1..] == dots[1..] + parts;
      StepUp(w, m, [], all, links);
      WalkDots(w, m, dots[1..], parts, links);
    }
  }

  /** Down a chain of directories to the absolute link at its end. */
  lemma {:induction false} WalkNames(w: World, m: set<string>, names: Path, to: Path, k: nat, parts: seq<string>,
          links: nat)
    requires AllOrdinary(names) && k < |names| && links > 0
    requires forall j :: 0 <= j < |names| ==> IsDir(w, m, names[..j])
    requires Lstat(w, m, names) == Some(Link(PathName(true, to)))
    ensures Walk(w, m, names[..k], names[k..] + parts, links) == Walk(w, m, [], to + parts, links - 1)
    decreases |names| - k
  {
    RewalkStep(names, k, parts);
    var all := names[k..] + parts;
    if k + 1 == |names| {
      assert names[..k + 1] == names && names[k + 1..] + parts == parts;
      StepLink(w, m, names[..k], all, links, PathName(true, to));
    } else {
      StepPlain(w, m, names[..k], all, links);
      WalkNames(w, m, names, to, k + 1, parts, links);
    }
  }

  /** Down a chain of directories and one level up again. */
  lemma WalkBackOut(w: World, m: set<string>, deep: Path, parts: seq<string>, links: nat)
    requires Physical(w, m, deep)
    ensures Walk(w, m, [], deep + ([".."] + parts), links) == Walk(w, m, Parent(deep), parts, links)
  {
    assert deep[..|deep|] == deep;
    WalkFromTop(w, m, deep, [".."] + parts, links);
    assert ([".."] + parts)[1..] == parts;
    StepUp(w, m, deep, [".."] + parts, links);
  }

  ghost predicate PlainDir(w: World, m: set<string>, at: Path) {
    AllOrdinary(at) && IsDir(w, m, at)
  }

  /** From directory to directory, the kernel takes `parts` as lexical cleaning does. */
  lemma {:induction false} WalkPlain(w: World, m: set<string>, base: Path, parts: seq<string>, k: nat,
          more: seq<string>, links: nat)
    requires k <= |parts| && forall j :: 0 <= j <= |parts| ==> PlainDir(w, m, Clean(true, base, parts[..j]))
    requires TidyTarget(PathName(true, parts))
    ensures Walk(w, m, Clean(true, base, parts[..k]), parts[k..] + more, links)
         == Walk(w, m, Clean(true, base, parts), more, links)
    decreases |parts| - k
  {
    if k == |parts| {
      assert parts[..k] == parts && parts[k..] + more == more;
    } else {
      var all, s := parts[k..] + more, Clean(true, base, parts[..k]);
      assert all[0] == parts[k] && all[1..] == parts[k + 1..] + more;
      CleanNext(base, parts, k);
      assert PlainDir(w, m, s) && PlainDir(w, m, Clean(true, base, parts[..k + 1]));
      WalkPushed(w, m, s, all, links);
      WalkPlain(w, m, base, parts, k + 1, more, links);
    }
  }

  lemma WalkPushed(w: World, m: set<string>, s: Path, parts: seq<string>, links: nat)
    requires parts != [] && PlainDir(w, m, s) && PlainDir(w, m, Push(true, s, parts[0]))
    requires parts[0] == ".." || Ordinary(parts[0])
    ensures Walk(w, m, s, parts, links) == Walk(w, m, Push(true, s, parts[0]), parts[1..], links)
  {
    if parts[0] == ".." {
      assert s != [] ==> s[|s| - 1] != "..";
      StepUp(w, m, s, parts, links);
    } else {
      StepPlain(w, m, s, parts, links);
    }
  }

  lemma WalkInRoot(w: World, m: set<string>, root: Path, image: string, links: nat)
    requires IsDir(w, m, root) && Ordinary(image) && HasOrLacks(w, m, root, image)
    ensures Walk(w, m, root, [image], links) == if image in m then Found(root + [image]) else NoEnt(root + [image])
  {
    assert [image][1..] == [];
    if image in m {
      StepPlain(w, m, root, [image], links);
    }
  }

  /** By the link at `exit` to the store path. */
  lemma WalkExit(w: World, m: set<string>, at: Path, exit: string, root: Path, image: string, links: nat)
    requires IsDir(w, m, at) && Physical(w, m, root) && links > 0 && Ordinary(exit) && Ordinary(image)
    requires Lstat(w, m, at + [exit]) == Some(Link(PathName(true, root + [image])))
    requires HasOrLacks(w, m, root, image)
    ensures Walk(w, m, at, [exit], links) == if image in m then Found(root + [image]) else NoEnt(root + [image])
  {
    var way := root + [image];
    assert way + [exit][1..] == way && root[..|root|] == root;
    StepLink(w, m, at, [exit], links, PathName(true, way));
    WalkFromTop(w, m, root, [image], links - 1);
    WalkInRoot(w, m, root, image, links - 1);
  }

  lemma RootIsADir(w: World, m: set<string>, p: Trap)
    requires HasChains(w, m, p)
    ensures IsDir(w, m, [])
  {
    assert p.deep[..0] == [];
  }

  lemma KernelTakesTheRest(w: World, m: set<string>, p: Trap, links: nat)
    requires p.Valid() && HasChains(w, m, p) && HasSpots(w, m, p)
    ensures Walk(w, m, [], p.deep + ([".."] + (p.rest + [p.exit])), links) == Walk(w, m, p.End(), [p.exit], links)
  {
    OwnNames(p);
    WalkBackOut(w, m, p.deep, p.rest + [p.exit], links);
    assert p.rest[..0] == [] && p.rest[0..] == p.rest && p.rest[..|p.rest|] == p.rest;
    forall j | 0 <= j <= |p.rest| ensures PlainDir(w, m, Clean(true, Parent(p.deep), p.rest[..j])) {
      SpotIsShaped(p, j);
      assert IsDir(w, m, p.Spot(j));
    }
    WalkPlain(w, m, Parent(p.deep), p.rest, 0, [p.exit], links);
  }

  lemma KernelTakesTheTarget(w: World, m: set<string>, p: Trap, links: nat)
    requires p.Valid() && HasChains(w, m, p) && links > 0
    ensures Walk(w, m, [], p.Target().parts + [p.exit], links)
         == Walk(w, m, [], p.deep + ([".."] + (p.rest + [p.exit])), links - 1)
  {
    RootIsADir(w, m, p);
    var tail := [".."] + (p.rest + [p.exit]);
    assert p.Target().parts + [p.exit] == p.dots + (p.names + tail);
    WalkDots(w, m, p.dots, p.names + tail, links);
    assert p.names[..0] == [] && p.names[0..] == p.names;
    WalkNames(w, m, p.names, p.deep, 0, tail, links);
  }

  /** The kernel climbs out of Deep and reaches the store path. */
  lemma KernelReaches(w: World, m: set<string>, p: Trap, links: nat)
    requires p.Valid() && HasChains(w, m, p) && HasSpots(w, m, p) && HasLinks(w, m, p) && links >= 3
        && Ordinary(p.image)
    ensures Walk(w, m, [], [p.entry, p.exit], links)
         == if p.image in m then Found(p.root + [p.image]) else NoEnt(p.root + [p.image])
  {
    OwnNames(p);
    RootIsADir(w, m, p);
    assert [p.entry, p.exit][1..] == [p.exit] && [] + [p.entry] == [p.entry];
    StepLink(w, m, [], [p.entry, p.exit], links, p.Target());
    KernelTakesTheTarget(w, m, p, links - 1);
    KernelTakesTheRest(w, m, p, links - 2);
    assert IsDir(w, m, p.Spot(|p.rest|));
    WalkExit(w, m, p.End(), p.exit, p.root, p.image, links - 2);
  }

  // ------------------------------------------------------------------ where `missingFor` goes

  lemma NotStorePath(w: World, m: set<string>, root: Path, at: Path)
    requires w.root == root && root != [] && (at != [] ==> at[0] != root[0])
    ensures Unmounted(w, m, at) == None
  {
    if |at| > |root| {
      assert at[..|root|][0] == at[0];
    }
  }

  /** Whatever its fuel, `missingFor` finds nothing to mount from here. */
  ghost predicate Lost(w: World, m: set<string>, cur: Path, parts: seq<string>) {
    forall fuel :: Missing(w, m, cur, parts, fuel) == None
  }

  lemma LostNext(w: World, m: set<string>, cur: Path, parts: seq<string>)
    requires parts != [] && IsDir(w, m, cur) && IsDir(w, m, cur + [parts[0]])
    requires Lost(w, m, cur + [parts[0]], parts[1..])
    ensures Lost(w, m, cur, parts)
  {
    forall fuel: nat ensures Missing(w, m, cur, parts, fuel) == None {
      if fuel > 0 {
        assert Missing(w, m, cur + [parts[0]], parts[1..], fuel - 1) == None;
      }
    }
  }

  lemma LostAtLink(w: World, m: set<string>, cur: Path, parts: seq<string>, t: PathName)
    requires parts != [] && IsDir(w, m, cur) && Lstat(w, m, cur + [parts[0]]) == Some(Link(t))
    requires Unmounted(w, m, Aim(cur, t)) == None && Lost(w, m, [], Splice(cur, t) + parts[1..])
    ensures Lost(w, m, cur, parts)
  {
    forall fuel: nat ensures Missing(w, m, cur, parts, fuel) == None {
      if fuel > 0 {
        MissingLink(w, m, cur, parts, fuel, t);
      }
    }
  }

  lemma LostAtGap(w: World, m: set<string>, root: Path, cur: Path, parts: seq<string>)
    requires w.root == root && root != []
    requires parts != [] ==> Lstat(w, m, cur + [parts[0]]) == None && (cur + [parts[0]])[0] != root[0]
    ensures Lost(w, m, cur, parts)
  {
    if parts != [] {
      NotStorePath(w, m, root, cur + [parts[0]]);
    }
  }

  /** Down a chain of directories, where nothing of what is to come stands. */
  lemma {:induction false} LostInDeep(w: World, m: set<string>, root: Path, deep: Path, j: nat, parts: seq<string>)
    requires w.root == root && root != [] && deep != [] && deep[0] != root[0] && j <= |deep|
    requires forall i :: 0 <= i <= |deep| ==> IsDir(w, m, deep[..i])
    requires parts != [] ==> Lstat(w, m, deep + [parts[0]]) == None
    ensures Lost(w, m, deep[..j], deep[j..] + parts)
    decreases |deep| - j
  {
    var all := deep[j..] + parts;
    if j == |deep| {
      assert deep[..j] == deep && all == parts;
      LostAtGap(w, m, root, deep, parts);
    } else {
      RewalkStep(deep, j, parts);
      LostInDeep(w, m, root, deep, j + 1, parts);
      LostNext(w, m, deep[..j], all);
    }
  }

  lemma LostFromTop(w: World, m: set<string>, root: Path, deep: Path, parts: seq<string>)
    requires w.root == root && root != [] && deep != [] && deep[0] != root[0] && AllOrdinary(deep)
    requires forall i :: 0 <= i <= |deep| ==> IsDir(w, m, deep[..i])
    requires parts != [] ==> Lstat(w, m, deep + [parts[0]]) == None
    ensures var t := PathName(true, deep); Unmounted(w, m, Aim([], t)) == None && Lost(w, m, [], Splice([], t) + parts)
  {
    NotStorePath(w, m, root, deep);
    CleanKeepsOrdinary(true, [], deep);
    assert [] + deep == deep && deep[..0] == [] && deep[0..] == deep;
    LostInDeep(w, m, root, deep, 0, parts);
  }

  ghost predicate AllAhead(p: Trap, parts: seq<string>) {
    forall i :: 0 <= i < |parts| ==> Ahead(p, parts[i])
  }

  /** The part of the namespace that `missingFor` sees. */
  ghost predicate Ground(w: World, m: set<string>, p: Trap) {
    w.root == p.root && HasChains(w, m, p) && HasGaps(w, m, p)
  }

  lemma LostBesideNames(w: World, m: set<string>, p: Trap, k: nat, parts: seq<string>)
    requires p.Valid() && Ground(w, m, p) && k < |p.names| && AllAhead(p, parts)
    requires parts == [] || parts[0] != p.names[k]
    ensures Lost(w, m, p.names[..k], parts)
  {
    OwnNames(p);
    if parts != [] {
      assert Ahead(p, parts[0]);
      assert (p.names[..k] + [parts[0]])[0] == if k == 0 then parts[0] else p.names[0];
    }
    LostAtGap(w, m, p.root, p.names[..k], parts);
  }

  lemma GapBelowDeep(w: World, m: set<string>, p: Trap, parts: seq<string>)
    requires HasGaps(w, m, p) && AllAhead(p, parts)
    ensures |parts| > 1 ==> Lstat(w, m, p.deep + [parts[1]]) == None
  {
    if |parts| > 1 {
      assert Ahead(p, parts[1]);
    }
  }

  lemma LostBehindNames(w: World, m: set<string>, p: Trap, parts: seq<string>)
    requires p.Valid() && Ground(w, m, p) && AllAhead(p, parts)
    requires parts != [] && parts[0] == p.names[|p.names| - 1]
    ensures Lost(w, m, p.names[..|p.names| - 1], parts)
  {
    OwnNames(p);
    var cur := p.names[..|p.names| - 1];
    assert cur + [parts[0]] == p.names;
    GapBelowDeep(w, m, p, parts);
    LostFromTop(w, m, p.root, p.deep, parts[1..]);
    LostAtLink(w, m, cur, parts, PathName(true, p.deep));
  }

  lemma PastName(w: World, m: set<string>, p: Trap, k: nat, parts: seq<string>)
    requires HasChains(w, m, p) && k + 1 < |p.names| && parts != [] && parts[0] == p.names[k]
    requires Lost(w, m, p.names[..k + 1], parts[1..])
    ensures Lost(w, m, p.names[..k], parts)
  {
    assert p.names[..k] + [parts[0]] == p.names[..k + 1];
    assert IsDir(w, m, p.names[..k]) && IsDir(w, m, p.names[..k + 1]);
    LostNext(w, m, p.names[..k], parts);
  }

  lemma AheadOn(p: Trap, parts: seq<string>)
    requires AllAhead(p, parts) && parts != []
    ensures AllAhead(p, parts[1..])
  {
  }

  lemma {:induction false} LostInNames(w: World, m: set<string>, p: Trap, k: nat, parts: seq<string>)
    requires p.Valid() && Ground(w, m, p) && k < |p.names| && AllAhead(p, parts)
    ensures Lost(w, m, p.names[..k], parts)
    decreases |p.names| - k
  {
    if parts == [] || parts[0] != p.names[k] {
      LostBesideNames(w, m, p, k, parts);
    } else if k + 1 == |p.names| {
      LostBehindNames(w, m, p, parts);
    } else {
      AheadOn(p, parts);
      LostInNames(w, m, p, k + 1, parts[1..]);
      PastName(w, m, p, k, parts);
    }
  }

  lemma {:induction false} CleanKeepsMembers(absolute: bool, stack: seq<string>, parts: seq<string>)
    ensures forall c :: c in Clean(absolute, stack, parts) ==> c in stack || c in parts
    decreases |parts|
  {
    if parts == [] {
    } else {
      var next := Push(absolute, stack, parts[0]);
      CleanKeepsMembers(absolute, next, parts[1..]);
      assert forall c :: c in next ==> c in stack || c == parts[0];
    }
  }

  lemma SplicedIsAhead(p: Trap)
    requires p.Valid()
    ensures AllAhead(p, Splice([], p.Target()) + [p.exit])
  {
    var t, q := p.Target().parts, Splice([], p.Target());
    CleanKeepsMembers(true, [], t);
    CleanRootedIsOrdinary([], t);
    forall i | 0 <= i < |q| ensures Ahead(p, q[i]) {
      assert q[i] in q;
      PartsAre(p, q[i]);
    }
  }

  lemma PartsAre(p: Trap, c: string)
    requires p.Valid() && c in p.Target().parts
    ensures c == ".." || c in p.names || c in p.rest
  {
  }

  lemma AimIsNoStorePath(w: World, m: set<string>, p: Trap)
    requires p.Valid() && w.root == p.root
    ensures Unmounted(w, m, Aim([], p.Target())) == None
  {
    OwnNames(p);
    var aim, q := Aim([], p.Target()), Splice([], p.Target());
    if p.absolute {
      PartsAre(p, aim[0]);
    } else if q != [] {
      SplicedIsAhead(p);
      assert (q + [p.exit])[0] == q[0];
    }
    NotStorePath(w, m, p.root, aim);
  }

  /** The cleaned target and then `exit`: `missingFor` looks for them along the names. */
  lemma SplicedIsLost(w: World, m: set<string>, p: Trap)
    requires p.Valid() && Ground(w, m, p)
    ensures Lost(w, m, [], Splice([], p.Target()) + [p.exit])
  {
    SplicedIsAhead(p);
    assert p.names[..0] == [];
    LostInNames(w, m, p, 0, Splice([], p.Target()) + [p.exit]);
  }

  lemma NothingIsMissing(w: World, m: set<string>, p: Trap)
    requires p.Valid() && Ground(w, m, p) && Lstat(w, m, [p.entry]) == Some(Link(p.Target()))
    ensures Lost(w, m, [], [p.entry, p.exit])
  {
    RootIsADir(w, m, p);
    assert [] + [p.entry] == [p.entry] && [p.entry, p.exit][1..] == [p.exit];
    AimIsNoStorePath(w, m, p);
    SplicedIsLost(w, m, p);
    LostAtLink(w, m, [], [p.entry, p.exit], p.Target());
  }
}
