/** The nix backend's image directory: builds through a temp file and a rename, a bounded number of them at a time,
    an archive's path recorded beside its image, and a link from each build ID to the image that holds it. The process
    may be killed between any two steps. */
module ImageCache {
  import opened ImageNames
  import opened Options

  type Id = nat
  type BuildId = string

  /** What an image is made from. */
  datatype Source = StorePath(hash: string, package: string) | Archive(path: string)

  datatype Image = OfHash(hash: string) | OfArchive(key: string)

  /** A file mkfs.erofs is writing, and one that a successful build left. */
  datatype File = Partial | Built(source: Source)

  datatype Stage =
    | Looking                 // is the image there?
    | Queueing                // wait for a slot
    | Rechecking
    | Building
    | Naming                  // built: about to truncate .name
    | Writing                 // writing .name, perhaps in parts
    | Renaming
    | CleaningUp(ok: bool)    // about to remove the temp file
    | Releasing(ok: bool)
    | Finished(ok: bool)

  /** A buildOnce: for the store path, or for the archive of a build ID. */
  datatype Job = Job(target: Target, stage: Stage)
  datatype Target = ForPath(hash: string, package: string) | ForBuild(id: BuildId, key: string, path: Option<string>)

  /** An archive in the binary cache, with the key of its name. */
  datatype Nar = Nar(path: string, key: string)

  /** `meta` is the binary cache's answer for a build ID: the archive that holds it. A build ID whose archive has a name
      without a usable key gets an error before anything is touched, and is left out. */
  datatype State = State(
    meta: map<BuildId, Nar>, limit: nat, slots: nat, next: Id, jobs: map<Id, Job>,
    images: map<Image, File>, tmps: map<Id, File>,
    recorded: map<string, string>, links: map<BuildId, string>)

  /** A key stands for one archive: its path is content-addressed. */
  ghost predicate KeysDetermine(meta: map<BuildId, Nar>) {
    forall b, c :: b in meta && c in meta && meta[b].key == meta[c].key ==> meta[b] == meta[c]
  }

  /** No archive's path is the beginning of another's. */
  ghost predicate PathsStandAlone(meta: map<BuildId, Nar>) {
    forall b, c :: b in meta && c in meta && meta[b].path <= meta[c].path ==> meta[b] == meta[c]
  }

  ghost predicate KeysAreRight(meta: map<BuildId, Nar>) {
    forall b :: b in meta ==> ArchiveKey(meta[b].path) == Some(meta[b].key)
  }

  ghost predicate Init(s: State) {
    && KeysDetermine(s.meta) && KeysAreRight(s.meta) && PathsStandAlone(s.meta)
    && s.limit >= 1
    && s == State(s.meta, s.limit, 0, 0, map[], map[], map[], map[], map[])
  }

  function ImageOf(t: Target): Image {
    match t
    case ForPath(hash, _) => OfHash(hash)
    case ForBuild(_, key, _) => OfArchive(key)
  }

  /** What singleflight tells calls apart by. */
  function Flight(t: Target): Target {
    match t
    case ForPath(_, _) => t
    case ForBuild(_, key, _) => ForBuild("", key, None)
  }

  predicate Active(x: Job) {
    !x.stage.Finished?
  }

  /** Between taking a slot and giving it back. */
  predicate Holding(x: Job) {
    !x.stage.Looking? && !x.stage.Queueing? && !x.stage.Finished?
  }

  function Holders(jobs: map<Id, Job>): set<Id> {
    set j | j in jobs && Holding(jobs[j])
  }

  // ------------------------------------------------------------------ the steps

  ghost predicate Free(s: State, t: Target) {
    forall j :: j in s.jobs && Active(s.jobs[j]) ==> Flight(s.jobs[j].target) != Flight(t)
  }

  function Launch(s: State, t: Target): State {
    s.(jobs := s.jobs[s.next := Job(t, Looking)], next := s.next + 1)
  }

  ghost predicate Ensure(s: State, s': State, hash: string, package: string) {
    Free(s, ForPath(hash, package)) && s' == Launch(s, ForPath(hash, package))
  }

  /** What a reader of an archive's `.name` file takes for its path: all that is in it, if anything is. */
  function OnRecord(s: State, key: string): Option<string> {
    if key in s.recorded && s.recorded[key] != "" then Some(s.recorded[key]) else None
  }

  /** archiveFor by the link: the key it leads to, and what is on record for it. */
  ghost predicate EntryByLink(s: State, s': State, b: BuildId) {
    && b in s.links && b in s.meta
    && var t := ForBuild(b, s.links[b], OnRecord(s, s.links[b]));
      Free(s, t) && s' == Launch(s, t)
  }

  /** archiveFor by the network; recording the link is best effort. */
  ghost predicate EntryByLookup(s: State, s': State, b: BuildId, link: bool) {
    && b in s.meta
    && var key := s.meta[b].key;
      var t := ForBuild(b, key, Some(s.meta[b].path));
      Free(s, t) && s' == Launch(s, t).(links := if link then s.links[b := key] else s.links)
  }

  predicate At(s: State, j: Id, stage: Stage) {
    j in s.jobs && s.jobs[j].stage == stage
  }

  function Move(s: State, j: Id, stage: Stage): State
    requires j in s.jobs
  {
    s.(jobs := s.jobs[j := s.jobs[j].(stage := stage)])
  }

  predicate Look(s: State, s': State, j: Id) {
    && At(s, j, Looking)
    && s' == Move(s, j, if ImageOf(s.jobs[j].target) in s.images then Finished(true) else Queueing)
  }

  predicate Acquire(s: State, s': State, j: Id) {
    At(s, j, Queueing) && s.slots < s.limit && s' == Move(s, j, Rechecking).(slots := s.slots + 1)
  }

  /** The request goes away while waiting for a slot. */
  predicate GiveUp(s: State, s': State, j: Id) {
    At(s, j, Queueing) && s' == Move(s, j, Finished(false))
  }

  predicate Recheck(s: State, s': State, j: Id) {
    && At(s, j, Rechecking)
    && s' == Move(s, j, if ImageOf(s.jobs[j].target) in s.images then Releasing(true) else Building)
  }

  /** The build writes into its own temp file for a while. */
  predicate WriteSome(s: State, s': State, j: Id) {
    At(s, j, Building) && s' == s.(tmps := s.tmps[j := Partial])
  }

  /** What a job fetches: the path it knows, or the one it asks for now. */
  predicate Fetches(s: State, t: Target, source: Source) {
    match t
    case ForPath(hash, package) => source == StorePath(hash, package)
    case ForBuild(b, _, path) =>
        if path.Some? then source == Archive(path.value) else b in s.meta && source == Archive(s.meta[b].path)
  }

  /** Only what the binary cache has can be fetched from it. */
  ghost predicate Exists(meta: map<BuildId, Nar>, source: Source) {
    source.Archive? ==> exists b :: b in meta && meta[b].path == source.path
  }

  ghost predicate BuildSucceeds(s: State, s': State, j: Id, source: Source) {
    && At(s, j, Building) && Fetches(s, s.jobs[j].target, source) && Exists(s.meta, source)
    && s' == Move(s, j, if s.jobs[j].target.ForBuild? then Naming else Renaming).(tmps := s.tmps[j := Built(source)])
  }

  predicate TruncateName(s: State, s': State, j: Id) {
    && At(s, j, Naming) && s.jobs[j].target.ForBuild?
    && s' == Move(s, j, Writing).(recorded := s.recorded[s.jobs[j].target.key := ""])
  }

  /** Part of the path gets into `.name`; the process may be killed, or the disk be full, before the rest does. */
  predicate WriteNamePart(s: State, s': State, j: Id, source: Source, k: nat) {
    && At(s, j, Writing) && s.jobs[j].target.ForBuild? && source.Archive? && Fetches(s, s.jobs[j].target, source)
    && k <= |source.path|
    && s' == s.(recorded := s.recorded[s.jobs[j].target.key := source.path[..k]])
  }

  predicate WriteName(s: State, s': State, j: Id, source: Source) {
    && At(s, j, Writing) && s.jobs[j].target.ForBuild? && source.Archive? && Fetches(s, s.jobs[j].target, source)
    && s' == Move(s, j, Renaming).(recorded := s.recorded[s.jobs[j].target.key := source.path])
  }

  predicate Rename(s: State, s': State, j: Id) {
    && At(s, j, Renaming) && j in s.tmps
    && s' == Move(s, j, CleaningUp(true)).(images := s.images[ImageOf(s.jobs[j].target) := s.tmps[j]],
        tmps := s.tmps - {j})
  }

  /** The fetch, mkfs.erofs, writing .name or the rename fails. */
  predicate Fail(s: State, s': State, j: Id) {
    && j in s.jobs && (s.jobs[j].stage.Building? || s.jobs[j].stage.Naming? || s.jobs[j].stage.Writing?
        || s.jobs[j].stage.Renaming?)
    && s' == Move(s, j, CleaningUp(false))
  }

  predicate CleanUp(s: State, s': State, j: Id) {
    && j in s.jobs && s.jobs[j].stage.CleaningUp?
    && s' == Move(s, j, Releasing(s.jobs[j].stage.ok)).(tmps := s.tmps - {j})
  }

  predicate Release(s: State, s': State, j: Id) {
    && j in s.jobs && s.jobs[j].stage.Releasing? && s.slots > 0
    && s' == Move(s, j, Finished(s.jobs[j].stage.ok)).(slots := s.slots - 1)
  }

  /** Somebody frees space: images, temp files and links may go at any time. */
  predicate Evict(s: State, s': State, images: set<Image>, tmps: set<Id>, links: set<BuildId>) {
    s' == s.(images := s.images - images, tmps := s.tmps - tmps, links := s.links - links)
  }

  predicate Kill(s: State, s': State) {
    s' == s.(jobs := map[], slots := 0)
  }

  datatype Step =
    | Ensures(hash: string, package: string) | EntersByLink(b: BuildId) | EntersByLookup(b: BuildId, link: bool)
    | Looks(j: Id) | Acquires(j: Id) | GivesUp(j: Id) | Rechecks(j: Id) | WritesSome(j: Id)
    | Succeeds(j: Id, source: Source) | Truncates(j: Id) | NamesPart(j: Id, source: Source, k: nat)
    | Names(j: Id, source: Source) | Renames(j: Id)
    | Fails(j: Id) | Cleans(j: Id) | Releases(j: Id)
    | Evicts(images: set<Image>, tmps: set<Id>, gone: set<BuildId>) | Killed

  ghost predicate Next(s: State, s': State, a: Step) {
    match a
    case Ensures(hash, package) => Ensure(s, s', hash, package)
    case EntersByLink(b) => EntryByLink(s, s', b)
    case EntersByLookup(b, link) => EntryByLookup(s, s', b, link)
    case Looks(j) => Look(s, s', j)
    case Acquires(j) => Acquire(s, s', j)
    case GivesUp(j) => GiveUp(s, s', j)
    case Rechecks(j) => Recheck(s, s', j)
    case WritesSome(j) => WriteSome(s, s', j)
    case Succeeds(j, source) => BuildSucceeds(s, s', j, source)
    case Truncates(j) => TruncateName(s, s', j)
    case NamesPart(j, source, k) => WriteNamePart(s, s', j, source, k)
    case Names(j, source) => WriteName(s, s', j, source)
    case Renames(j) => Rename(s, s', j)
    case Fails(j) => Fail(s, s', j)
    case Cleans(j) => CleanUp(s, s', j)
    case Releases(j) => Release(s, s', j)
    case Evicts(images, tmps, gone) => Evict(s, s', images, tmps, gone)
    case Killed => Kill(s, s')
  }

  ghost predicate CanStep(s: State, s': State) {
    exists a :: Next(s, s', a)
  }

  ghost predicate StepAt(run: seq<State>, i: nat)
    requires i + 1 < |run|
  {
    CanStep(run[i], run[i + 1])
  }

  ghost predicate IsRun(run: seq<State>) {
    |run| > 0 && Init(run[0]) && forall i :: 0 <= i < |run| - 1 ==> StepAt(run, i)
  }

  // ------------------------------------------------------------------ the invariant

  /** The archive a key stands for. */
  ghost predicate PathOf(meta: map<BuildId, Nar>, key: string, path: string) {
    exists b :: b in meta && meta[b] == Nar(path, key)
  }

  /** An image made from what its name says. */
  ghost predicate Fits(meta: map<BuildId, Nar>, i: Image, f: File) {
    f.Built? && match i
      case OfHash(hash) => f.source.StorePath? && f.source.hash == hash
      case OfArchive(key) => f.source.Archive? && PathOf(meta, key, f.source.path)
  }

  ghost predicate ImageFits(s: State, i: Image)
    requires i in s.images
  {
    && Fits(s.meta, i, s.images[i])
    && (i.OfArchive? ==> i.key in s.recorded && s.recorded[i.key] == s.images[i].source.path)
  }

  predicate TargetFits(meta: map<BuildId, Nar>, t: Target) {
    t.ForBuild? ==> t.id in meta && meta[t.id].key == t.key && (t.path.Some? ==> t.path.value <= meta[t.id].path)
  }

  /** A build that has fetched something was told the whole path, or asked for it. */
  predicate Fetched(meta: map<BuildId, Nar>, x: Job) {
    x.target.ForBuild? && (x.stage.Naming? || x.stage.Writing? || x.stage.Renaming?) ==>
      x.target.id in meta && (x.target.path.Some? ==> x.target.path.value == meta[x.target.id].path)
  }

  /** Past the second look, and before its own rename, a build of an archive is the only one and its
      image is not there. */
  predicate Alone(s: State, x: Job) {
    && x.target.ForBuild?
    && (x.stage.Building? || x.stage.Naming? || x.stage.Writing? || x.stage.Renaming?)
  }

  ghost predicate JobFits(s: State, j: Id)
    requires j in s.jobs
  {
    var x := s.jobs[j];
    && j < s.next && TargetFits(s.meta, x.target) && Fetched(s.meta, x)
    && (x.stage.Naming? || x.stage.Writing? ==> x.target.ForBuild?)
    && (x.stage.Naming? || x.stage.Writing? || x.stage.Renaming? ==> j in s.tmps ==>
        Fits(s.meta, ImageOf(x.target), s.tmps[j]))
    && (Alone(s, x) ==> ImageOf(x.target) !in s.images)
    && (x.stage.Renaming? && x.target.ForBuild? ==>
          x.target.key in s.recorded && s.recorded[x.target.key] == s.meta[x.target.id].path)
  }

  ghost predicate JobsFit(s: State) {
    && (forall j :: j in s.jobs ==> JobFits(s, j))
    && FlightsFit(s.jobs)
    && s.slots == |Holders(s.jobs)| <= s.limit
  }

  /** The beginning of the path that a key stands for. */
  ghost predicate BeginsPathOf(meta: map<BuildId, Nar>, key: string, text: string) {
    exists b :: b in meta && meta[b].key == key && text <= meta[b].path
  }

  ghost predicate DiskFits(s: State) {
    && (forall i :: i in s.images ==> ImageFits(s, i))
    && (forall k :: k in s.recorded ==> BeginsPathOf(s.meta, k, s.recorded[k]))
    && (forall b :: b in s.links ==> b in s.meta && s.meta[b].key == s.links[b])
  }

  ghost predicate Inv(s: State) {
    KeysDetermine(s.meta) && PathsStandAlone(s.meta) && JobsFit(s) && DiskFits(s)
  }

  // ------------------------------------------------------------------ every step keeps it

  lemma HoldersMove(jobs: map<Id, Job>, j: Id, x: Job)
    ensures var before := if j in jobs && Holding(jobs[j]) then 1 else 0;
      |Holders(jobs[j := x])| == |Holders(jobs)| - before + if Holding(x) then 1 else 0
  {
    var rest := Holders(jobs) - {j};
    assert Holders(jobs) == if j in jobs && Holding(jobs[j]) then rest + {j} else rest;
    assert Holders(jobs[j := x]) == if Holding(x) then rest + {j} else rest;
  }

  ghost predicate FlightsFit(jobs: map<Id, Job>) {
    forall j, k :: j in jobs && k in jobs && j != k && Active(jobs[j]) && Active(jobs[k]) ==>
      Flight(jobs[j].target) != Flight(jobs[k].target)
  }

  /** One job goes a step on; nobody's flight changes. */
  lemma MovedFits(s: State, s': State, j: Id)
    requires JobsFit(s) && j in s.jobs && j in s'.jobs && Active(s.jobs[j])
    requires s'.jobs == s.jobs[j := s'.jobs[j]] && s'.jobs[j].target == s.jobs[j].target && s'.limit == s.limit
    requires s'.slots == s.slots - (if Holding(s.jobs[j]) then 1 else 0) + (if Holding(s'.jobs[j]) then 1 else 0)
    requires s'.slots <= s.limit
    ensures FlightsFit(s'.jobs) && s'.slots == |Holders(s'.jobs)| <= s'.limit
  {
    HoldersMove(s.jobs, j, s'.jobs[j]);
  }

  /** What a job relies on, as long as the others leave its temp file, its image and its record alone. */
  lemma OthersFit(s: State, s': State, j: Id)
    requires j in s.jobs && JobFits(s, j) && j in s'.jobs && s'.jobs[j] == s.jobs[j]
    requires s'.meta == s.meta && s.next <= s'.next
    requires j in s'.tmps ==> j in s.tmps && s'.tmps[j] == s.tmps[j]
    requires Alone(s, s.jobs[j]) ==> ImageOf(s.jobs[j].target) !in s'.images
    requires s.jobs[j].target.ForBuild? && s.jobs[j].stage.Renaming? && s.jobs[j].target.key in s.recorded ==>
               s.jobs[j].target.key in s'.recorded && s'.recorded[s.jobs[j].target.key]
                 == s.recorded[s.jobs[j].target.key]
    ensures JobFits(s', j)
  {
  }

  lemma SameDisk(s: State, s': State)
    requires DiskFits(s) && s'.meta == s.meta && s'.recorded == s.recorded
    requires forall i :: i in s'.images ==> i in s.images && s'.images[i] == s.images[i]
    requires forall b :: b in s'.links ==> b in s.meta && s.meta[b].key == s'.links[b]
    ensures DiskFits(s')
  {
    forall i | i in s'.images ensures ImageFits(s', i) {
      assert ImageFits(s, i);
    }
  }

  /** A new call joins no call of the same flight. */
  lemma LaunchKeeps(s: State, s': State, t: Target)
    requires Inv(s) && Free(s, t) && TargetFits(s.meta, t)
    requires s' == Launch(s, t).(links := s'.links)
    requires forall b :: b in s'.links ==> b in s.meta && s.meta[b].key == s'.links[b]
    ensures Inv(s')
  {
    forall j | j in s.jobs ensures j < s.next {
      assert JobFits(s, j);
    }
    HoldersMove(s.jobs, s.next, Job(t, Looking));
    forall j | j in s'.jobs ensures JobFits(s', j) {
      if j in s.jobs {
        OthersFit(s, s', j);
      }
    }
    SameDisk(s, s');
  }

  lemma EntryKeeps(s: State, s': State, a: Step)
    requires Inv(s) && Next(s, s', a) && (a.Ensures? || a.EntersByLink? || a.EntersByLookup?)
    ensures Inv(s')
  {
    match a
    case Ensures(hash, package) => LaunchKeeps(s, s', ForPath(hash, package));
    case EntersByLink(b) =>
      if OnRecord(s, s.links[b]).Some? {
        assert BeginsPathOf(s.meta, s.links[b], s.recorded[s.links[b]]);
      }
      LaunchKeeps(s, s', ForBuild(b, s.links[b], OnRecord(s, s.links[b])));
    case EntersByLookup(b, _) =>
      LaunchKeeps(s, s', ForBuild(b, s.meta[b].key, Some(s.meta[b].path)));
  }

  /** Steps of a job that leave images and records alone. */
  predicate Quiet(a: Step) {
    a.Looks? || a.Acquires? || a.GivesUp? || a.Rechecks? || a.Fails? || a.Cleans? || a.Releases?
  }

  /** The shape of a quiet step: one job moves, with its slot and its temp file. */
  lemma QuietMoves(s: State, s': State, a: Step)
    requires s.slots <= s.limit && Next(s, s', a) && Quiet(a)
    ensures a.j in s.jobs && a.j in s'.jobs && Active(s.jobs[a.j]) && s'.jobs[a.j].target == s.jobs[a.j].target
    ensures s' == s.(jobs := s.jobs[a.j := s'.jobs[a.j]], slots := s'.slots, tmps := s'.tmps)
    ensures s'.slots == s.slots - (if Holding(s.jobs[a.j]) then 1 else 0) + (if Holding(s'.jobs[a.j]) then 1 else 0)
    ensures s'.slots <= s.limit
    ensures s'.tmps == s.tmps || s'.tmps == s.tmps - {a.j}
  {
  }

  lemma QuietJob(s: State, s': State, a: Step)
    requires Quiet(a) && a.j in s.jobs && JobFits(s, a.j) && Next(s, s', a)
    ensures a.j in s'.jobs && JobFits(s', a.j)
  {
  }

  lemma QuietKeeps(s: State, s': State, a: Step)
    requires Inv(s) && Next(s, s', a) && Quiet(a)
    ensures Inv(s')
  {
    QuietMoves(s, s', a);
    assert JobFits(s, a.j);
    QuietJob(s, s', a);
    QuietRest(s, s', a.j);
  }

  lemma QuietRest(s: State, s': State, k: Id)
    requires Inv(s) && k in s.jobs && k in s'.jobs && Active(s.jobs[k]) && s'.jobs[k].target == s.jobs[k].target
    requires s' == s.(jobs := s.jobs[k := s'.jobs[k]], slots := s'.slots, tmps := s'.tmps)
    requires s'.slots == s.slots - (if Holding(s.jobs[k]) then 1 else 0) + (if Holding(s'.jobs[k]) then 1 else 0)
    requires s'.slots <= s.limit && (s'.tmps == s.tmps || s'.tmps == s.tmps - {k}) && JobFits(s', k)
    ensures Inv(s')
  {
    MovedFits(s, s', k);
    forall j | j in s'.jobs ensures JobFits(s', j) {
      if j != k {
        OthersFit(s, s', j);
      }
    }
    SameDisk(s, s');
  }

  lemma WriteSomeKeeps(s: State, s': State, a: Step)
    requires Inv(s) && Next(s, s', a) && a.WritesSome?
    ensures Inv(s')
  {
    assert JobFits(s, a.j);
    forall j | j in s'.jobs ensures JobFits(s', j) {
      if j != a.j {
        OthersFit(s, s', j);
      }
    }
    SameDisk(s, s');
  }

  /** A path that begins an archive's, and can be fetched, is that archive's. */
  lemma FetchedTheRightOne(s: State, t: Target, source: Source)
    requires PathsStandAlone(s.meta) && TargetFits(s.meta, t) && t.ForBuild?
    requires Fetches(s, t, source) && Exists(s.meta, source)
    ensures source == Archive(s.meta[t.id].path) && (t.path.Some? ==> t.path.value == s.meta[t.id].path)
  {
    var b :| b in s.meta && s.meta[b].path == source.path;
  }

  lemma SucceedKeeps(s: State, s': State, a: Step)
    requires Inv(s) && Next(s, s', a) && a.Succeeds?
    ensures Inv(s')
  {
    assert JobFits(s, a.j);
    var t := s.jobs[a.j].target;
    if t.ForBuild? {
      assert PathOf(s.meta, t.key, s.meta[t.id].path);
      FetchedTheRightOne(s, t, a.source);
    }
    MovedFits(s, s', a.j);
    forall j | j in s'.jobs ensures JobFits(s', j) {
      if j != a.j {
        OthersFit(s, s', j);
      }
    }
    SameDisk(s, s');
  }

  /** Whoever is about to touch an archive's record is the only one at work on that archive. */
  lemma OnlyOne(s: State, j: Id, k: Id)
    requires JobsFit(s) && j in s.jobs && k in s.jobs && j != k
    requires s.jobs[j].target.ForBuild? && s.jobs[k].target.ForBuild? && Active(s.jobs[j]) && Active(s.jobs[k])
    ensures s.jobs[j].target.key != s.jobs[k].target.key
  {
    assert Flight(s.jobs[j].target) != Flight(s.jobs[k].target);
  }

  lemma RecordOwnJob(s: State, s': State, a: Step)
    requires Inv(s) && Next(s, s', a) && (a.Truncates? || a.NamesPart? || a.Names?)
    ensures a.j in s.jobs && a.j in s'.jobs && Active(s.jobs[a.j]) && JobFits(s', a.j)
    ensures s.jobs[a.j].target.ForBuild?
    ensures s' == s.(jobs := s.jobs[a.j := s'.jobs[a.j]], recorded := s.recorded[s.jobs[a.j].target.key
        := s'.recorded[s.jobs[a.j].target.key]])
    ensures s'.jobs[a.j].target == s.jobs[a.j].target && Holding(s.jobs[a.j]) && Holding(s'.jobs[a.j])
  {
    assert JobFits(s, a.j);
  }

  lemma RecordOthers(s: State, s': State, k: Id, j: Id)
    requires JobsFit(s) && k in s.jobs && j in s.jobs && j != k
    requires s.jobs[k].target.ForBuild? && Active(s.jobs[k])
    requires s.jobs[k].target.key in s'.recorded
    requires s'.recorded == s.recorded[s.jobs[k].target.key := s'.recorded[s.jobs[k].target.key]]
    requires s'.meta == s.meta && s'.next == s.next && s'.tmps == s.tmps
    requires s'.images == s.images && j in s'.jobs && s'.jobs[j] == s.jobs[j]
    ensures JobFits(s', j)
  {
    assert JobFits(s, j);
    if s.jobs[j].target.ForBuild? && s.jobs[j].stage.Renaming? {
      OnlyOne(s, k, j);
    }
    OthersFit(s, s', j);
  }

  lemma RecordJobs(s: State, s': State, a: Step)
    requires Inv(s) && Next(s, s', a) && (a.Truncates? || a.NamesPart? || a.Names?)
    ensures JobsFit(s')
  {
    RecordOwnJob(s, s', a);
    MovedFits(s, s', a.j);
    forall j | j in s'.jobs ensures JobFits(s', j) {
      if j != a.j {
        RecordOthers(s, s', a.j, j);
      }
    }
  }

  /** The one record that changes is that of the job's own key, and it begins its archive's path. */
  lemma RecordMoves(s: State, s': State, a: Step)
    requires Inv(s) && Next(s, s', a) && (a.Truncates? || a.NamesPart? || a.Names?)
    ensures a.j in s.jobs && s.jobs[a.j].target.ForBuild?
    ensures var t := s.jobs[a.j].target;
      && t.id in s.meta && s.meta[t.id].key == t.key && t.key in s'.recorded
      && s'.recorded[t.key] <= s.meta[t.id].path && s'.recorded == s.recorded[t.key := s'.recorded[t.key]]
      && OfArchive(t.key) !in s.images
      && s'.meta == s.meta && s'.images == s.images && s'.links == s.links
  {
    assert JobFits(s, a.j);
  }

  lemma RecordDisk(s: State, s': State, t: Target)
    requires DiskFits(s) && t.ForBuild? && t.id in s.meta && s.meta[t.id].key == t.key && t.key in s'.recorded
    requires s'.recorded[t.key] <= s.meta[t.id].path && s'.recorded == s.recorded[t.key := s'.recorded[t.key]]
    requires OfArchive(t.key) !in s.images && s'.meta == s.meta && s'.images == s.images && s'.links == s.links
    ensures DiskFits(s')
  {
    forall i | i in s'.images ensures ImageFits(s', i) {
      assert ImageFits(s, i);
    }
    forall k | k in s'.recorded ensures BeginsPathOf(s'.meta, k, s'.recorded[k]) {
      if k != t.key {
        assert BeginsPathOf(s.meta, k, s.recorded[k]);
      }
    }
  }

  lemma RecordKeeps(s: State, s': State, a: Step)
    requires Inv(s) && Next(s, s', a) && (a.Truncates? || a.NamesPart? || a.Names?)
    ensures Inv(s')
  {
    RecordJobs(s, s', a);
    RecordMoves(s, s', a);
    RecordDisk(s, s', s.jobs[a.j].target);
  }

  lemma RenameJobs(s: State, s': State, a: Step)
    requires Inv(s) && Next(s, s', a) && a.Renames?
    ensures JobsFit(s')
  {
    assert JobFits(s, a.j);
    MovedFits(s, s', a.j);
    forall j | j in s'.jobs ensures JobFits(s', j) {
      if j != a.j {
        assert JobFits(s, j);
        if s.jobs[a.j].target.ForBuild? && Alone(s, s.jobs[j]) {
          OnlyOne(s, a.j, j);
        }
        OthersFit(s, s', j);
      }
    }
  }

  lemma RenameKeeps(s: State, s': State, a: Step)
    requires Inv(s) && Next(s, s', a) && a.Renames?
    ensures Inv(s')
  {
    RenameJobs(s, s', a);
    var t := s.jobs[a.j].target;
    assert JobFits(s, a.j);
    if t.ForBuild? {
      RenamedFits(s, a.j);
    }
    forall i | i in s'.images ensures ImageFits(s', i) {
      if i != ImageOf(t) {
        assert ImageFits(s, i);
      }
    }
  }

  lemma RenamedFits(s: State, j: Id)
    requires Inv(s) && At(s, j, Renaming) && j in s.tmps && s.jobs[j].target.ForBuild?
    ensures var t := s.jobs[j].target;
      Fits(s.meta, ImageOf(t), s.tmps[j]) && t.key in s.recorded && s.recorded[t.key] == s.tmps[j].source.path
  {
    assert JobFits(s, j);
    var t := s.jobs[j].target;
    assert PathOf(s.meta, t.key, s.tmps[j].source.path);
  }

  lemma OutsideKeeps(s: State, s': State, a: Step)
    requires Inv(s) && Next(s, s', a) && (a.Evicts? || a.Killed?)
    ensures Inv(s')
  {
    forall j | j in s'.jobs ensures JobFits(s', j) {
      OthersFit(s, s', j);
    }
    SameDisk(s, s');
    assert a.Killed? ==> Holders(s'.jobs) == {};
  }

  lemma NextKeeps(s: State, s': State, a: Step)
    requires Inv(s) && Next(s, s', a)
    ensures Inv(s') && s'.meta == s.meta && s'.limit == s.limit
  {
    if a.Ensures? || a.EntersByLink? || a.EntersByLookup? {
      EntryKeeps(s, s', a);
    } else if Quiet(a) {
      QuietKeeps(s, s', a);
    } else if a.WritesSome? {
      WriteSomeKeeps(s, s', a);
    } else if a.Succeeds? {
      SucceedKeeps(s, s', a);
    } else if a.Truncates? || a.NamesPart? || a.Names? {
      RecordKeeps(s, s', a);
    } else if a.Renames? {
      RenameKeeps(s, s', a);
    } else {
      OutsideKeeps(s, s', a);
    }
  }

  lemma StepKeeps(s: State, s': State)
    requires Inv(s) && CanStep(s, s')
    ensures Inv(s') && s'.meta == s.meta && s'.limit == s.limit
  {
    var a :| Next(s, s', a);
    NextKeeps(s, s', a);
  }

  lemma InitHolds(s: State)
    requires Init(s)
    ensures Inv(s)
  {
    assert Holders(s.jobs) == {};
  }

  lemma {:induction false} RunKeeps(run: seq<State>, i: nat)
    requires IsRun(run) && i < |run|
    ensures Inv(run[i]) && run[i].meta == run[0].meta && run[i].limit == run[0].limit
    decreases i
  {
    if i == 0 {
      InitHolds(run[0]);
    } else {
      RunKeeps(run, i - 1);
      assert StepAt(run, i - 1);
      StepKeeps(run[i - 1], run[i]);
    }
  }

  // ------------------------------------------------------------------ the theorems

  /** What stands under an image's name is what a build that succeeded made of just that store path hash or archive. */
  lemma ImagesAreWhole(run: seq<State>, i: nat, image: Image)
    requires IsRun(run) && i < |run| && image in run[i].images
    ensures Fits(run[i].meta, image, run[i].images[image])
  {
    RunKeeps(run, i);
    assert ImageFits(run[i], image);
  }

  /** Where an archive's image stands, its path is on record: the path it was made from, with the key
      the image is named for. */
  lemma ImageIsOnRecord(run: seq<State>, i: nat, key: string)
    requires IsRun(run) && i < |run| && OfArchive(key) in run[i].images
    ensures var s := run[i];
      && key in s.recorded && ArchiveKey(s.recorded[key]) == Some(key)
      && s.images[OfArchive(key)] == Built(Archive(s.recorded[key]))
  {
    RunKeeps(run, i);
    assert ImageFits(run[i], OfArchive(key));
    assert PathOf(run[i].meta, key, run[i].recorded[key]);
  }

  /** Slots in use are exactly the builds between taking one and giving it back, never more than the limit; and no two
      calls of one flight are under way. */
  lemma BuildsAreBounded(run: seq<State>, i: nat, j: Id, k: Id)
    requires IsRun(run) && i < |run| && j in run[i].jobs && k in run[i].jobs
    ensures run[i].slots == |Holders(run[i].jobs)| <= run[0].limit
    ensures j != k && Active(run[i].jobs[j]) && Active(run[i].jobs[k]) ==>
        Flight(run[i].jobs[j].target) != Flight(run[i].jobs[k].target)
  {
    RunKeeps(run, i);
  }

  /** The key read from a build ID's link is the key of the archive that holds it. What a request learns of the path
      with it begins that archive's path, and is all of it wherever the archive's image stands. */
  lemma LinksTellTheKey(run: seq<State>, i: nat, b: BuildId)
    requires IsRun(run) && i < |run| && b in run[i].links
    ensures var s := run[i];
      && b in s.meta && ArchiveKey(s.meta[b].path) == Some(s.links[b])
      && KeyFromImageName(Base(LinkTarget(s.links[b]))) == Some(s.links[b])
      && (OnRecord(s, s.links[b]).Some? ==> OnRecord(s, s.links[b]).value <= s.meta[b].path)
      && (OfArchive(s.links[b]) in s.images ==> s.links[b] in s.recorded && s.recorded[s.links[b]] == s.meta[b].path)
  {
    RunKeeps(run, i);
    KeyRoundTrip(run[i].meta[b].path);
    RecordIs(run[i], run[i].links[b], b);
  }

  lemma RecordIs(s: State, key: string, b: BuildId)
    requires KeysDetermine(s.meta) && DiskFits(s) && b in s.meta && s.meta[b].key == key
    ensures OnRecord(s, key).Some? ==> OnRecord(s, key).value <= s.meta[b].path
    ensures OfArchive(key) in s.images ==> key in s.recorded && s.recorded[key] == s.meta[b].path
  {
    if key in s.recorded {
      assert BeginsPathOf(s.meta, key, s.recorded[key]);
    }
    if OfArchive(key) in s.images {
      assert ImageFits(s, OfArchive(key));
      assert PathOf(s.meta, key, s.recorded[key]);
    }
  }

  /** A record left partly written defeats every request that learns the path from it: while its build runs, nothing
      can be fetched for it; and a build succeeds exactly if its path is whole, or it has none and asks. */
  lemma PartialRecordFails(run: seq<State>, i: nat, j: Id)
    requires IsRun(run) && i < |run| && j in run[i].jobs
    requires run[i].jobs[j].target.ForBuild? && run[i].jobs[j].stage.Building?
    ensures var s, t := run[i], run[i].jobs[j].target;
      && t.id in s.meta
      && ((exists source, s' :: BuildSucceeds(s, s', j, source)) <==>
          t.path == None || t.path == Some(s.meta[t.id].path))
  {
    RunKeeps(run, i);
    var s, t := run[i], run[i].jobs[j].target;
    assert JobFits(s, j);
    if t.path == None || t.path == Some(s.meta[t.id].path) {
      var source := Archive(s.meta[t.id].path);
      assert Exists(s.meta, source);
      assert BuildSucceeds(s, Move(s, j, Naming).(tmps := s.tmps[j := Built(source)]), j, source);
    }
    forall source, s' | BuildSucceeds(s, s', j, source)
      ensures t.path == None || t.path == Some(s.meta[t.id].path)
    {
      FetchedTheRightOne(s, t, source);
    }
  }
}
