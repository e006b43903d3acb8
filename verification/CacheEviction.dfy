/** Eviction from the proxy's cache directory: abandoned temp files, then the oldest blobs until the
    rest fits the target. */
module CacheEviction {
  import opened Greedy
  import opened Orders

  const FETCH_TIMEOUT := 30 * 60

  datatype Path = Path(dir: string, name: string)

  /** A regular file as the walk meets it. An unreadable one is skipped: neither counted nor touched. */
  datatype File = File(path: Path, size: nat, mtime: int, readable: bool)

  datatype Kind = Temp | Meta | Blob | Foreign

  predicate Contains(s: string, part: string) {
    exists i :: 0 <= i <= |s| && part <= s[i..]
  }

  predicate EndsWith(s: string, suffix: string) {
    |suffix| <= |s| && s[|s| - |suffix|..] == suffix
  }

  predicate IsBlobName(name: string) {
    |name| == 64 && forall i :: 0 <= i < |name| ==> '0' <= name[i] <= '9' || 'a' <= name[i] <= 'f'
  }

  function KindOf(f: File): Kind {
    if Contains(f.path.name, ".tmp-") then Temp
    else if EndsWith(f.path.name, ".meta") then Meta
    else if IsBlobName(f.path.name) then Blob
    else Foreign
  }

  /** The files of the cache by name, wherever they are: a key is 64 hexadecimal digits in small
      letters, its document adds ".meta", and whatever has ".tmp-" in its name is a temp file. Any other
      name without a dot is none of the cache's. */
  lemma KindIs(key: string, suffix: string, f: File)
    requires '.' !in key
    ensures var hex := |key| == 64 && forall i :: 0 <= i < |key| ==> '0' <= key[i] <= '9' || 'a' <= key[i] <= 'f';
      f.path.name == key ==> KindOf(f) == if hex then Blob else Foreign
    ensures f.path.name == key + ".meta" ==> KindOf(f) == Meta
    ensures f.path.name == key + ".tmp-" + suffix || f.path.name == key + ".meta.tmp-" + suffix ==> KindOf(f) == Temp
  {
    NoDot(key, key);
    NoDot(key, key + ".meta");
    assert (key + ".meta")[|key|..] == ".meta";
    var temp := key + ".tmp-" + suffix;
    assert temp[|key|..] == ".tmp-" + suffix && ".tmp-" <= ".tmp-" + suffix;
    var metaTemp := key + ".meta.tmp-" + suffix;
    assert metaTemp == key + ".meta" + (".tmp-" + suffix) && metaTemp[|key| + 5..] == ".tmp-" + suffix;
  }

  lemma NoDot(key: string, name: string)
    requires '.' !in key && (name == key || name == key + ".meta")
    ensures !Contains(name, ".tmp-")
    ensures name == key ==> !EndsWith(name, ".meta")
  {
    forall k | 0 <= k <= |name| ensures !(".tmp-" <= name[k..]) {
      var rest := name[k..];
      assert |rest| >= 2 ==> rest[0] == name[k] && rest[1] == name[k + 1];
      assert ".tmp-"[0] == '.' && ".tmp-"[1] == 't';
      assert k < |key| ==> name[k] == key[k] && key[k] in key;
      assert k >= |key| ==> rest == ".meta"[k - |key|..] || rest == "";
    }
    if name == key && |key| >= 5 {
      assert name[|name| - 5] in key;
      assert name[|name| - 5..][0] == name[|name| - 5] && ".meta"[0] == '.';
    }
  }

  /** A temp file is abandoned once nothing has been written to it for more than half an hour. */
  lemma AbandonedIs(f: File, now: int)
    ensures Abandoned(f, now) <==> KindOf(f) == Temp && now > f.mtime + 1800
  {
  }

  /** No download lives this long, so whoever wrote the file is dead. */
  predicate Abandoned(f: File, now: int) {
    KindOf(f) == Temp && now - f.mtime > FETCH_TIMEOUT
  }

  predicate Counts(f: File, now: int) {
    f.readable && KindOf(f) != Foreign && !Abandoned(f, now)
  }

  function Count(files: seq<File>, now: int): nat {
    if files == [] then 0
    else (if Counts(files[0], now) then files[0].size else 0) + Count(files[1..], now)
  }

  function Blobs(files: seq<File>): (r: seq<File>)
    ensures forall f :: f in r <==> f in files && f.readable && KindOf(f) == Blob
  {
    if files == [] then []
    else if files[0].readable && KindOf(files[0]) == Blob then [files[0]] + Blobs(files[1..])
    else Blobs(files[1..])
  }

  ghost predicate DistinctPaths(files: seq<File>) {
    forall i, j :: 0 <= i < j < |files| ==> files[i].path != files[j].path
  }

  function Keep(files: seq<File>, removed: set<Path>): (r: seq<File>)
    ensures forall f :: f in r <==> f in files && f.path !in removed
  {
    if files == [] then []
    else if files[0].path in removed then Keep(files[1..], removed)
    else [files[0]] + Keep(files[1..], removed)
  }

  function Sizes(files: seq<File>): seq<nat> {
    seq(|files|, i requires 0 <= i < |files| => files[i].size)
  }

  lemma {:induction false} KeepNothing(files: seq<File>)
    ensures Keep(files, {}) == files
  {
    if files == [] {
    } else {
      KeepNothing(files[1..]);
    }
  }

  lemma {:induction false} KeepTwice(files: seq<File>, a: set<Path>, b: set<Path>)
    ensures Keep(Keep(files, a), b) == Keep(files, a + b)
  {
    if files == [] {
    } else {
      KeepTwice(files[1..], a, b);
      if files[0].path !in a {
        assert Keep(files, a)[1..] == Keep(files[1..], a);
      }
    }
  }

  lemma {:induction false} KeepAbsent(files: seq<File>, p: Path)
    requires forall f :: f in files ==> f.path != p
    ensures Keep(files, {p}) == files
  {
    if files == [] {
    } else {
      KeepAbsent(files[1..], p);
    }
  }

  lemma {:induction false} KeepDistinct(files: seq<File>, removed: set<Path>)
    requires DistinctPaths(files)
    ensures DistinctPaths(Keep(files, removed))
  {
    if files == [] {
    } else {
      KeepDistinct(files[1..], removed);
      var rest := Keep(files[1..], removed);
      forall j | 0 <= j < |rest| ensures rest[j].path != files[0].path {
        assert rest[j] in files[1..];
      }
    }
  }

  /** Removing files never adds to the count, and removing one that counts takes its size off. */
  lemma {:induction false} CountKeep(files: seq<File>, p: Path, now: int)
    requires DistinctPaths(files)
    ensures Count(Keep(files, {p}), now) <= Count(files, now)
    ensures forall f :: f in files && f.path == p && Counts(f, now) ==>
        Count(Keep(files, {p}), now) == Count(files, now) - f.size
  {
    if files == [] {
    } else {
      CountKeep(files[1..], p, now);
      assert files == [files[0]] + files[1..];
      if files[0].path == p {
        assert forall f :: f in files[1..] ==> f.path != p;
        KeepAbsent(files[1..], p);
      } else {
        assert Keep(files, {p})[1..] == Keep(files[1..], {p});
      }
    }
  }

  /** Time only turns live temp files into abandoned ones. */
  lemma {:induction false} CountAges(files: seq<File>, now: int, later: int)
    requires now <= later
    ensures Count(files, later) <= Count(files, now)
  {
    if files == [] {
    } else {
      CountAges(files[1..], now, later);
    }
  }

  lemma {:induction false} BlobsKeep(files: seq<File>, removed: set<Path>)
    requires forall f :: f in files && f.path in removed ==> KindOf(f) != Blob
    ensures Blobs(Keep(files, removed)) == Blobs(files)
  {
    if files == [] {
    } else {
      BlobsKeep(files[1..], removed);
      if files[0].path !in removed {
        assert Keep(files, removed)[1..] == Keep(files[1..], removed);
      }
    }
  }

  /** What the walk has added up and collected before the i-th file of the listing. */
  ghost predicate Surveyed(files: seq<File>, i: nat, blobs: seq<File>, total: nat, now: int)
    requires i <= |files|
  {
    blobs + Blobs(files[i..]) == Blobs(files) && total + Count(files[i..], now) == Count(files, now)
  }

  lemma SurveyedOneMore(files: seq<File>, i: nat, blobs: seq<File>, total: nat, now: int)
    requires i < |files| && Surveyed(files, i, blobs, total, now)
    ensures var f := files[i];
      && (f.readable && KindOf(f) == Blob ==> Surveyed(files, i + 1, blobs + [f], total + f.size, now))
      && (Counts(f, now) && KindOf(f) != Blob ==> Surveyed(files, i + 1, blobs, total + f.size, now))
      && (!Counts(f, now) ==> Surveyed(files, i + 1, blobs, total, now))
  {
    assert files[i..][1..] == files[i + 1..];
  }

  // ------------------------------------------------------------------ the order

  function Earliest(): (File, File) -> bool {
    (x: File, y: File) => x.mtime <= y.mtime
  }

  // ------------------------------------------------------------------ the directory

  /** Whether it can be walked, and which names can be unlinked from it, is up to the filesystem. */
  class Directory {
    var files: seq<File>
    const walks: bool
    const obeys: set<Path>

    ghost predicate Valid()
      reads this
    {
      DistinctPaths(files)
    }

    /** unlink: it succeeds or nothing happens. */
    method Remove(p: Path) returns (ok: bool)
      requires Valid()
      modifies this
      ensures Valid()
      ensures ok ==> exists f :: f in old(files) && f.path == p
      ensures files == if ok then Keep(old(files), {p}) else old(files)
      ensures p in obeys ==> forall f :: f in files ==> f.path != p
    {
      KeepDistinct(files, {p});
      ok := *;
      ok := (ok || p in obeys) && exists i :: 0 <= i < |files| && files[i].path == p;
      if ok {
        files := Keep(files, {p});
      }
    }
  }

  function MetaPath(p: Path): Path {
    p.(name := p.name + ".meta")
  }

  function Taken(order: seq<File>, gone: seq<bool>): set<Path>
    requires |gone| <= |order|
  {
    set i | 0 <= i < |gone| && gone[i] :: order[i].path
  }

  function TheirMetas(order: seq<File>, gone: seq<bool>): set<Path>
    requires |gone| <= |order|
  {
    set i | 0 <= i < |gone| && gone[i] :: MetaPath(order[i].path)
  }

  function AbandonedPaths(files: seq<File>, now: int): set<Path> {
    set f | f in files && f.readable && Abandoned(f, now) :: f.path
  }

  /** How the directory stands after the attempts `gone`: only abandoned temp files, taken blobs and their
      .meta files are missing, and every taken blob is. */
  ghost predicate Progress(was: seq<File>, files: seq<File>, removed: set<Path>, order: seq<File>, gone: seq<bool>,
          target: int, now: int) {
    && |gone| <= |order|
    && files == Keep(was, removed)
    && Taken(order, gone) <= removed <= AbandonedPaths(was, now) + Taken(order, gone) + TheirMetas(order, gone)
    && AllNeeded(Count(was, now), target, Sizes(order), gone)
    && Count(files, now) + Freed(Sizes(order), gone) <= Count(was, now)
  }

  lemma TakenOneMore(order: seq<File>, gone: seq<bool>, ok: bool)
    requires |gone| < |order|
    ensures Taken(order, gone + [ok]) == Taken(order, gone) + if ok then {order[|gone|].path} else {}
    ensures TheirMetas(order, gone + [ok]) == TheirMetas(order, gone) + if ok then {MetaPath(order[|gone|].path)}
        else {}
  {
    var more := gone + [ok];
    assert forall i :: 0 <= i < |gone| ==> more[i] == gone[i];
    assert more[|gone|] == ok;
  }

  /** What a successful drop removes. */
  function Dropped(f: File, metaToo: bool): set<Path> {
    {f.path} + if metaToo then {MetaPath(f.path)} else {}
  }

  lemma ProgressOneMore(was: seq<File>, before: seq<File>, after: seq<File>, removed: set<Path>, order: seq<File>,
          gone: seq<bool>, target: int, now: int, ok: bool, metaToo: bool)
    requires Progress(was, before, removed, order, gone, target, now)
    requires |gone| < |order| && !Met(Count(was, now), target, Sizes(order), gone)
    requires !ok ==> after == before
    requires ok ==> after == Keep(before, Dropped(order[|gone|], metaToo))
    requires ok ==> Count(after, now) <= Count(before, now) - order[|gone|].size
    ensures Progress(was, after, if ok then removed + Dropped(order[|gone|], metaToo) else removed, order, gone + [ok],
                     target, now)
  {
    OneMore(Count(was, now), target, Sizes(order), gone, ok);
    TakenOneMore(order, gone, ok);
    KeepTwice(was, removed, Dropped(order[|gone|], metaToo));
  }

  /** Oldest first: no blob that a pass left alone was modified before one that it tried to remove. */
  lemma OldestGoFirst(was: seq<File>, order: seq<File>, gone: seq<bool>, i: nat, f: File)
    requires SameElements(order, Blobs(was)) && Sorted(Earliest(), order) && i < |gone| <= |order|
    requires f in Blobs(was) && forall k :: 0 <= k < |gone| ==> order[k] != f
    ensures order[i].mtime <= f.mtime
  {
    assert f in multiset(Blobs(was)) && f in multiset(order);
    var j :| 0 <= j < |order| && order[j] == f;
    assert j >= |gone|;
    assert Earliest()(order[i], order[j]);
  }

  /** Nothing blob-like can be lost to the removal of a .meta, nor a foreign file to anything. */
  lemma OnlyOursGo(was: seq<File>, files: seq<File>, removed: set<Path>, order: seq<File>, gone: seq<bool>,
          target: int, now: int, f: File)
    requires DistinctPaths(was) && Progress(was, files, removed, order, gone, target, now)
    requires forall g :: g in order ==> g in Blobs(was)
    requires f in was
    ensures KindOf(f) == Foreign ==> f in files
    ensures KindOf(f) == Temp ==> f in files || (Abandoned(f, now) && f.readable)
    ensures KindOf(f) == Blob ==> (f in files <==> f.path !in Taken(order, gone))
    ensures KindOf(f) == Meta && f !in files ==> f.path in TheirMetas(order, gone)
    ensures !f.readable && KindOf(f) != Meta ==> f in files
  {
    if f.path in AbandonedPaths(was, now) {
      SweptIsAbandoned(was, now, f);
    }
    forall g | g in order && f.path == g.path ensures g == f && f in Blobs(was) {
      OneOfPath(was, f, g);
    }
    if f.path in TheirMetas(order, gone) {
      MetaOfBlob(order, gone, f);
    }
  }

  lemma OneOfPath(was: seq<File>, f: File, g: File)
    requires DistinctPaths(was) && f in was && g in was && f.path == g.path
    ensures f == g
  {
  }

  lemma SweptIsAbandoned(was: seq<File>, now: int, f: File)
    requires DistinctPaths(was) && f in was && f.path in AbandonedPaths(was, now)
    ensures f.readable && Abandoned(f, now)
  {
    var g :| g in was && g.readable && Abandoned(g, now) && g.path == f.path;
    OneOfPath(was, f, g);
  }

  lemma MetaOfBlob(order: seq<File>, gone: seq<bool>, f: File)
    requires |gone| <= |order| && f.path in TheirMetas(order, gone)
    requires forall g :: g in order ==> KindOf(g) == Blob
    ensures KindOf(f) == Meta
  {
    var i :| 0 <= i < |gone| && gone[i] && f.path == MetaPath(order[i].path);
    var name := order[i].path.name;
    assert order[i] in order;
    assert f.path.name[64..] == ".meta";
    forall k | 0 <= k <= |f.path.name| ensures !(".tmp-" <= f.path.name[k..]) {
      var rest := f.path.name[k..];
      assert |rest| >= 2 ==> rest[0] == f.path.name[k] && rest[1] == f.path.name[k + 1];
      assert k < 64 ==> f.path.name[k] == name[k] != '.';
      assert ".tmp-"[0] == '.' && ".tmp-"[1] == 't';
    }
  }

  class Cache {
    const disk: Directory

    ghost predicate Valid()
      reads this, disk
    {
      disk.Valid()
    }

    constructor (disk: Directory)
      requires disk.Valid()
      ensures Valid() && this.disk == disk
    {
      this.disk := disk;
    }

    /** The walk comes upon an abandoned temp file. */
    method Sweep(f: File, now: int, ghost was: seq<File>, ghost swept: set<Path>) returns (ghost removed: set<Path>)
      requires Valid() && disk.files == Keep(was, swept)
      modifies disk
      ensures Valid() && swept <= removed <= swept + {f.path}
      ensures disk.files == Keep(was, removed)
      ensures Count(disk.files, now) <= Count(old(disk.files), now)
      ensures f.path in disk.obeys ==> f !in disk.files
    {
      CountKeep(disk.files, f.path, now);
      KeepTwice(was, swept, {f.path});
      var ok := disk.Remove(f.path);
      removed := swept;
      if ok {
        removed := swept + {f.path};
      }
    }

    /** The walk: abandoned temp files go, everything of ours is added up, the blobs become candidates. */
    method Survey(now: int) returns (blobs: seq<File>, total: nat, ghost removed: set<Path>)
      requires Valid()
      modifies disk
      ensures Valid()
      ensures blobs == Blobs(old(disk.files)) && total == Count(old(disk.files), now)
      ensures removed <= AbandonedPaths(old(disk.files), now)
      ensures disk.files == Keep(old(disk.files), removed)
      ensures Count(disk.files, now) <= total
      ensures Swept(old(disk.files), disk.files, now)
    {
      var listing := disk.files;
      blobs, total, removed := [], 0, {};
      KeepNothing(listing);
      for i := 0 to |listing|
        invariant Valid()
        invariant Surveyed(listing, i, blobs, total, now)
        invariant removed <= AbandonedPaths(listing, now)
        invariant disk.files == Keep(listing, removed)
        invariant Count(disk.files, now) <= Count(listing, now)
        invariant Swept(listing[..i], disk.files, now)
      {
        var f := listing[i];
        SurveyedOneMore(listing, i, blobs, total, now);
        ghost var before := disk.files;
        if f.readable {
          match KindOf(f) {
            case Temp =>
              if now - f.mtime > FETCH_TIMEOUT {
                removed := Sweep(f, now, listing, removed);
              } else {
                total := total + f.size;
              }
            case Meta =>
              total := total + f.size;
            case Blob =>
              blobs := blobs + [f];
              total := total + f.size;
            case Foreign =>
          }
        }
        SweptOneMore(listing, i, before, disk.files, now);
      }
      assert listing[..|listing|] == listing;
    }

    lemma SweptOneMore(listing: seq<File>, i: nat, before: seq<File>, after: seq<File>, now: int)
      requires i < |listing| && Swept(listing[..i], before, now) && forall f :: f in after ==> f in before
      requires listing[i].readable && Abandoned(listing[i], now) && listing[i].path in disk.obeys ==>
                 listing[i] !in after
      ensures Swept(listing[..i + 1], after, now)
    {
      assert listing[..i + 1] == listing[..i] + [listing[i]];
    }

    /** Of these files, the abandoned ones that can be unlinked are gone. */
    ghost predicate Swept(files: seq<File>, left: seq<File>, now: int) {
      forall f :: f in files && f.readable && Abandoned(f, now) && f.path in disk.obeys ==> f !in left
    }

    /** Remove a blob, and its .meta if the blob went. */
    method Drop(f: File, now: int) returns (ok: bool, ghost metaToo: bool)
      requires Valid() && f.readable && KindOf(f) == Blob
      requires forall g :: g in disk.files && g.path == f.path ==> g == f
      modifies disk
      ensures Valid()
      ensures !ok ==> disk.files == old(disk.files)
      ensures ok ==> disk.files == Keep(old(disk.files), Dropped(f, metaToo))
      ensures ok ==> Count(disk.files, now) <= Count(old(disk.files), now) - f.size
      ensures f.path in disk.obeys ==> f !in disk.files
    {
      CountKeep(disk.files, f.path, now);
      ok := disk.Remove(f.path);
      metaToo := false;
      if ok {
        CountKeep(disk.files, MetaPath(f.path), now);
        KeepTwice(old(disk.files), {f.path}, {MetaPath(f.path)});
        assert {f.path} + {} == {f.path};
        var also := disk.Remove(MetaPath(f.path));
        metaToo := also;
      }
    }

    /** One pass over the directory, with the target somewhere between nothing and the limit. */
    method EvictOnce(maxBytes: int, target: int, now: int)
      returns (ok: bool, ghost order: seq<File>, ghost gone: seq<bool>, ghost removed: set<Path>)
      requires Valid() && (maxBytes > 0 ==> 0 <= target <= maxBytes)
      modifies disk
      ensures Valid() && forall f :: f in disk.files ==> f in old(disk.files)
      ensures maxBytes <= 0 || !ok ==> disk.files == old(disk.files) && gone == []
      ensures ok && maxBytes > 0 ==> Progress(old(disk.files), disk.files, removed, order, gone, target, now)
      ensures ok && maxBytes > 0 && Count(old(disk.files), now) <= maxBytes ==> gone == []
      ensures ok && maxBytes > 0 && Count(old(disk.files), now) > maxBytes ==>
                && SameElements(order, Blobs(old(disk.files))) && Sorted(Earliest(), order)
                && IsPass(Count(old(disk.files), now), target, Sizes(order), gone)
                && (Met(Count(old(disk.files), now), target, Sizes(order), gone) ==> Count(disk.files, now) <= target)
      ensures ok == (maxBytes <= 0 || disk.walks)
      ensures ok && maxBytes > 0 ==> Swept(old(disk.files), disk.files, now)
      ensures ok && maxBytes > 0 && Count(old(disk.files), now) > maxBytes && Obeyed(old(disk.files)) ==>
                Count(disk.files, now) <= target || Blobs(disk.files) == []
      ensures ok && maxBytes > 0 && Obeyed(old(disk.files)) ==> Fits(disk.files, now, maxBytes)
    {
      order, gone, removed := [], [], {};
      ok := true;
      if maxBytes <= 0 {
        return;
      }
      ok := disk.walks;
      if !ok {
        return;
      }
      var blobs, total;
      blobs, total, removed := Survey(now);
      if total <= maxBytes {
        return;
      }
      var files := new File[|blobs|](i requires 0 <= i < |blobs| => blobs[i]);
      assert files[..] == blobs;
      Sort(files, Earliest());
      var victims := files[..];
      order := victims;
      ghost var was := old(disk.files);
      gone, removed := EvictInOrder(was, victims, total, target, now, removed);
      if Obeyed(was) {
        NoneLeft(was, disk.files, removed, order, gone);
      }
    }

    /** All blobs can be unlinked. */
    ghost predicate Obeyed(files: seq<File>) {
      forall f :: f in Blobs(files) ==> f.path in disk.obeys
    }

    /** Attempts at blobs that can be unlinked went well. */
    ghost predicate AsAsked(order: seq<File>, gone: seq<bool>, left: seq<File>) {
      |gone| <= |order| && forall i :: 0 <= i < |gone| && order[i].path in disk.obeys ==> order[i] !in left
    }

    lemma AskedOneMore(order: seq<File>, gone: seq<bool>, ok: bool, before: seq<File>, after: seq<File>)
      requires AsAsked(order, gone, before) && |gone| < |order| && forall f :: f in after ==> f in before
      requires order[|gone|].path in disk.obeys ==> order[|gone|] !in after
      ensures AsAsked(order, gone + [ok], after)
    {
    }

    /** A pass that attempted every blob, and every attempt went well, leaves none. */
    lemma NoneLeft(was: seq<File>, left: seq<File>, removed: set<Path>, order: seq<File>, gone: seq<bool>)
      requires Obeyed(was) && SameElements(order, Blobs(was)) && left == Keep(was, removed)
      requires AsAsked(order, gone, left)
      ensures |gone| == |order| ==> Blobs(left) == []
    {
      if |gone| == |order| {
        forall f | f in Blobs(was) ensures f !in left {
          assert f in multiset(Blobs(was)) && f in multiset(order);
          var i :| 0 <= i < |order| && order[i] == f;
        }
        assert Blobs(left) != [] ==> Blobs(left)[0] in Blobs(was);
      }
    }

    /** The greedy loop over the sorted blobs. */
    method EvictInOrder(ghost was: seq<File>, order: seq<File>, total: nat, target: int, now: int,
            ghost swept: set<Path>)
      returns (ghost gone: seq<bool>, ghost removed: set<Path>)
      requires Valid() && DistinctPaths(was) && SameElements(order, Blobs(was))
      requires total == Count(was, now) && Progress(was, disk.files, swept, order, [], target, now)
      modifies disk
      ensures Valid()
      ensures Progress(was, disk.files, removed, order, gone, target, now)
      ensures IsPass(total, target, Sizes(order), gone)
      ensures AsAsked(order, gone, disk.files)
      ensures forall f :: f in disk.files ==> f in old(disk.files)
    {
      gone, removed := [], swept;
      var freed := 0;
      var i := 0;
      while i < |order|
        invariant |gone| == i <= |order| && Valid()
        invariant freed == Freed(Sizes(order), gone)
        invariant Progress(was, disk.files, removed, order, gone, target, now)
        invariant AsAsked(order, gone, disk.files) && forall f :: f in disk.files ==> f in old(disk.files)
      {
        if total - freed <= target {
          break;
        }
        ghost var j := ElementOf(order, Blobs(was), i);
        ghost var before := disk.files;
        var ok, metaToo := Drop(order[i], now);
        OneMore(total, target, Sizes(order), gone, ok);
        ProgressOneMore(was, before, disk.files, removed, order, gone, target, now, ok, metaToo);
        AskedOneMore(order, gone, ok, before, disk.files);
        if ok {
          removed := removed + Dropped(order[i], metaToo);
          freed := freed + order[i].size;
        }
        gone := gone + [ok];
        i := i + 1;
      }
    }

    /** Passes at the given times over a cache nobody uses in between: once a pass leaves it at or under the target,
        no later one removes a blob. */
    method EvictLoop(maxBytes: int, target: int, times: seq<int>) returns (ghost seen: seq<seq<File>>)
      requires Valid() && (maxBytes > 0 ==> 0 <= target <= maxBytes)
      requires forall i, j :: 0 <= i < j < |times| ==> times[i] <= times[j]
      modifies disk
      ensures Valid() && |seen| == |times|
      ensures BlobsStay(seen, times, target)
      ensures disk.walks && maxBytes > 0 && Obeyed(old(disk.files)) ==> AllFit(seen, times, maxBytes)
    {
      seen := [];
      for r := 0 to |times|
        invariant Valid() && |seen| == r && Calm(seen, times, disk.files, target)
        invariant BlobsStay(seen, times, target)
        invariant forall f :: f in disk.files ==> f in old(disk.files)
        invariant disk.walks && maxBytes > 0 && Obeyed(old(disk.files)) ==> AllFit(seen, times, maxBytes)
      {
        ghost var was := disk.files;
        var ok, order, gone, removed := EvictOnce(maxBytes, target, times[r]);
        if Count(was, times[r]) <= target {
          if ok && maxBytes > 0 {
            IdlePass(was, disk.files, removed, order, target, times[r]);
          }
          assert Settled(was, disk.files, times[r], target);
        }
        CalmOneMore(seen, times, was, disk.files, target);
        BlobsStayOneMore(seen, times, disk.files, target);
        seen := seen + [disk.files];
      }
    }
  }

  ghost predicate Settled(was: seq<File>, files: seq<File>, now: int, target: int) {
    Count(files, now) <= target && Blobs(files) == Blobs(was)
  }

  /** Every pass that left the cache at or under the target was followed by idle ones only. */
  ghost predicate Calm(seen: seq<seq<File>>, times: seq<int>, files: seq<File>, target: int)
    requires |seen| <= |times|
  {
    forall i :: 0 <= i < |seen| && Count(seen[i], times[i]) <= target ==>
        Settled(seen[i], files, times[|seen| - 1], target)
  }

  lemma StaysSettled(first: seq<File>, was: seq<File>, files: seq<File>, ago: int, now: int, target: int)
    requires ago <= now && Settled(first, was, ago, target)
    requires Count(was, now) <= target ==> Settled(was, files, now, target)
    ensures Settled(first, files, now, target)
  {
    CountAges(was, ago, now);
  }

  lemma CalmOneMore(seen: seq<seq<File>>, times: seq<int>, was: seq<File>, files: seq<File>, target: int)
    requires |seen| < |times| && forall i, j :: 0 <= i < j < |times| ==> times[i] <= times[j]
    requires Calm(seen, times, was, target)
    requires var now := times[|seen|]; Count(was, now) <= target ==> Settled(was, files, now, target)
    ensures Calm(seen + [files], times, files, target)
  {
    var r, more := |seen|, seen + [files];
    var now := times[r];
    assert |more| - 1 == r && more[r] == files;
    forall i | 0 <= i < |more| && Count(more[i], times[i]) <= target ensures Settled(more[i], files, now, target) {
      if i < r {
        assert more[i] == seen[i];
        var ago := times[r - 1];
        assert Settled(seen[i], was, ago, target);
        StaysSettled(seen[i], was, files, ago, now, target);
      }
    }
  }

  /** After a pass that left the cache at or under the target, the blobs stay the same. */
  ghost predicate BlobsStay(seen: seq<seq<File>>, times: seq<int>, target: int) {
    |seen| <= |times| && forall i, j :: 0 <= i < j < |seen| && Count(seen[i], times[i]) <= target ==>
      Blobs(seen[j]) == Blobs(seen[i])
  }

  lemma BlobsStayOneMore(seen: seq<seq<File>>, times: seq<int>, files: seq<File>, target: int)
    requires |seen| < |times| && BlobsStay(seen, times, target) && Calm(seen + [files], times, files, target)
    ensures BlobsStay(seen + [files], times, target)
  {
    var more := seen + [files];
    forall i, j | 0 <= i < j < |more| && Count(more[i], times[i]) <= target ensures Blobs(more[j]) == Blobs(more[i]) {
      assert more[i] == seen[i];
      if j == |seen| {
        assert Settled(more[i], files, times[|more| - 1], target);
      } else {
        assert more[j] == seen[j];
      }
    }
  }

  /** Within the limit, as far as blobs go. */
  ghost predicate Fits(files: seq<File>, now: int, maxBytes: int) {
    Count(files, now) <= maxBytes || Blobs(files) == []
  }

  ghost predicate AllFit(seen: seq<seq<File>>, times: seq<int>, maxBytes: int) {
    |seen| <= |times| && forall i :: 0 <= i < |seen| ==> Fits(seen[i], times[i], maxBytes)
  }

  lemma IdlePass(was: seq<File>, files: seq<File>, removed: set<Path>, order: seq<File>, target: int, now: int)
    requires DistinctPaths(was) && Progress(was, files, removed, order, [], target, now)
    requires Count(was, now) <= target
    ensures Settled(was, files, now, target)
  {
    forall f | f in was && f.path in removed ensures KindOf(f) != Blob {
      assert f.path in AbandonedPaths(was, now);
    }
    BlobsKeep(was, removed);
  }
}
