/** Which file of several source trees a recorded path means: an index by basename, against the best over every file. */
module SrcIndex {
  import opened Options
  import opened Paths

  /** A regular file a walk reports: its name, and where it lies below the root. A root that is itself a
      file has no parts. */
  datatype File = File(name: string, parts: seq<string>)

  /** A tree given to the index, with the files its walk reports in order, or None if it cannot be resolved. */
  datatype Tree = Tree(root: PathName, walk: Option<seq<File>>)

  /** A file with the tree it comes from and that tree's place in the priority order. */
  datatype Candidate = Candidate(root: PathName, prio: nat, file: File)

  ghost predicate WellFormed(f: File) {
    AllOrdinary(f.parts) && Ordinary(f.name) && (f.parts != [] ==> f.name == f.parts[|f.parts| - 1])
  }

  ghost predicate AllWellFormed(trees: seq<Tree>) {
    forall i, f :: 0 <= i < |trees| && trees[i].walk.Some? && f in trees[i].walk.value ==> WellFormed(f)
  }

  /** filepath.Join of a root and what lies below it. */
  function Join(root: PathName, parts: seq<string>): PathName {
    PathName(root.absolute, Clean(root.absolute, [], root.parts + parts))
  }

  /** Where a file is: below its tree's root, whatever the root looks like. */
  function FullPath(c: Candidate): PathName {
    PathName(c.root.absolute, SplitPath(c.root) + c.file.parts)
  }

  lemma JoinedIsBelow(root: PathName, parts: seq<string>)
    requires AllOrdinary(parts)
    ensures Join(root, parts) == PathName(root.absolute, SplitPath(root) + parts)
  {
    CleanAppend(root.absolute, [], root.parts, parts);
    CleanKeepsOrdinary(root.absolute, SplitPath(root), parts);
  }

  lemma {:induction false} FilesAreWellFormed(trees: seq<Tree>, i: nat)
    requires AllWellFormed(trees) && i < |Flat(trees)|
    ensures WellFormed(Flat(trees)[i].file)
  {
    if trees == [] {
    } else {
      var k := |trees| - 1;
      if i < |Flat(trees[..k])| {
        FilesAreWellFormed(trees[..k], i);
      } else {
        assert trees[k].walk.Some? && trees[k].walk.value[i - |Flat(trees[..k])|] in trees[k].walk.value;
      }
    }
  }

  function SplitPath(p: PathName): seq<string> {
    Clean(p.absolute, [], p.parts)
  }

  // ------------------------------------------------------------------ what the answer should be

  /** All files of all readable trees, in walk order. */
  function Flat(trees: seq<Tree>): seq<Candidate> {
    if trees == [] then []
    else
      var k := |trees| - 1;
      Flat(trees[..k]) + (if trees[k].walk.Some? then Tagged(trees[k].root, k, trees[k].walk.value) else [])
  }

  function Tagged(root: PathName, prio: nat, files: seq<File>): seq<Candidate> {
    seq(|files|, i requires 0 <= i < |files| => Candidate(root, prio, files[i]))
  }

  /** The component with k more behind it. */
  function LastBut(s: seq<string>, k: nat): string
    requires k < |s|
  {
    s[|s| - 1 - k]
  }

  ghost predicate SharesExactly(a: seq<string>, b: seq<string>, n: nat) {
    && n <= |a| && n <= |b|
    && (forall k :: 0 <= k < n ==> LastBut(a, k) == LastBut(b, k))
    && (n < |a| && n < |b| ==> LastBut(a, n) != LastBut(b, n))
  }

  /** How many trailing components two paths share. */
  function CommonSuffix(a: seq<string>, b: seq<string>): (n: nat)
    ensures n <= |a| && n <= |b|
  {
    if a == [] || b == [] || a[|a| - 1] != b[|b| - 1] then 0
    else 1 + CommonSuffix(a[..|a| - 1], b[..|b| - 1])
  }

  lemma {:induction false} CommonSuffixIs(a: seq<string>, b: seq<string>)
    ensures SharesExactly(a, b, CommonSuffix(a, b))
  {
    if a != [] && b != [] && a[|a| - 1] == b[|b| - 1] {
      var c, d := a[..|a| - 1], b[..|b| - 1];
      CommonSuffixIs(c, d);
      assert forall k :: 0 <= k < |c| ==> LastBut(a, k + 1) == LastBut(c, k);
      assert forall k :: 0 <= k < |d| ==> LastBut(b, k + 1) == LastBut(d, k);
      forall k | 0 <= k <= CommonSuffix(c, d) ensures LastBut(a, k) == LastBut(b, k) {
        if k > 0 {
          assert LastBut(c, k - 1) == LastBut(d, k - 1);
        }
      }
    }
  }

  lemma SharesExactlyOnce(a: seq<string>, b: seq<string>, n: nat)
    requires SharesExactly(a, b, n)
    ensures n == CommonSuffix(a, b)
  {
    CommonSuffixIs(a, b);
  }

  /** The longer match, then the tree of higher priority, then the shallower file. */
  predicate Beats(c: Candidate, d: Candidate, want: seq<string>) {
    var m, n := CommonSuffix(c.file.parts, want), CommonSuffix(d.file.parts, want);
    m > n || (m == n && (c.prio < d.prio || (c.prio == d.prio && |c.file.parts| < |d.file.parts|)))
  }

  predicate Shares(c: Candidate, want: seq<string>) {
    want != [] && c.file.name == want[|want| - 1]
  }

  /** The i-th file is the best of those sharing the basename, and the first of those it ties with. */
  ghost predicate IsBest(flat: seq<Candidate>, want: seq<string>, i: nat) {
    && i < |flat| && Shares(flat[i], want)
    && (forall j :: 0 <= j < |flat| && Shares(flat[j], want) ==> !Beats(flat[j], flat[i], want))
    && (forall j :: 0 <= j < i && Shares(flat[j], want) ==> Beats(flat[i], flat[j], want))
  }

  lemma BestIsUnique(flat: seq<Candidate>, want: seq<string>, i: nat, j: nat)
    requires IsBest(flat, want, i) && IsBest(flat, want, j)
    ensures i == j
  {
    assert !Beats(flat[i], flat[j], want) && !Beats(flat[j], flat[i], want);
  }

  /** Unless a tree is a single file, the best of those sharing the basename is the best of all files. */
  lemma BestOfAll(flat: seq<Candidate>, want: seq<string>, i: nat, j: nat)
    requires IsBest(flat, want, i) && j < |flat|
    requires forall c :: c in flat ==> WellFormed(c.file) && c.file.parts != []
    ensures CommonSuffix(flat[i].file.parts, want) > 0
    ensures !Beats(flat[j], flat[i], want)
    ensures j < i ==> Beats(flat[i], flat[j], want)
    ensures CommonSuffix(flat[j].file.parts, want) > 0 <==> Shares(flat[j], want)
  {
    assert flat[i] in flat && flat[j] in flat;
  }

  /** The i-th file overall is the j-th that the walk of the k-th tree reports. */
  ghost predicate ComesFrom(trees: seq<Tree>, i: nat, k: nat, j: nat)
    requires i < |Flat(trees)|
  {
    && k < |trees| && trees[k].walk.Some? && j < |trees[k].walk.value|
    && Flat(trees)[i] == Candidate(trees[k].root, k, trees[k].walk.value[j])
  }

  lemma {:induction false} EveryFileIsThere(trees: seq<Tree>, k: nat, j: nat) returns (i: nat)
    requires k < |trees| && trees[k].walk.Some? && j < |trees[k].walk.value|
    ensures i < |Flat(trees)| && ComesFrom(trees, i, k, j)
    decreases |trees|
  {
    var last := |trees| - 1;
    if k == last {
      i := |Flat(trees[..last])| + j;
    } else {
      i := EveryFileIsThere(trees[..last], k, j);
    }
  }

  lemma {:induction false} ComesFromSome(trees: seq<Tree>, i: nat) returns (k: nat, j: nat)
    requires i < |Flat(trees)|
    ensures ComesFrom(trees, i, k, j)
    decreases |trees|
  {
    var last := |trees| - 1;
    var before := |Flat(trees[..last])|;
    if i < before {
      k, j := ComesFromSome(trees[..last], i);
    } else {
      k, j := last, i - before;
    }
  }

  /** The file meant by a request comes from the first tree, in the order in which they were given, that has a file of
      that name matching as long: no other tree has a longer match, and no earlier one an equal one. */
  lemma EarlierTreeWins(trees: seq<Tree>, want: seq<string>, i: nat, k: nat, j: nat, l: nat, m: nat)
    requires i < |Flat(trees)| && IsBest(Flat(trees), want, i) && ComesFrom(trees, i, k, j)
    requires l < |trees| && trees[l].walk.Some? && m < |trees[l].walk.value|
    requires trees[l].walk.value[m].name == want[|want| - 1]
    ensures var mine, its := trees[k].walk.value[j].parts, trees[l].walk.value[m].parts;
      && CommonSuffix(its, want) <= CommonSuffix(mine, want)
      && (CommonSuffix(its, want) == CommonSuffix(mine, want) ==> k <= l)
      && (CommonSuffix(its, want) == CommonSuffix(mine, want) && k == l ==> |mine| <= |its|)
  {
    var n := EveryFileIsThere(trees, l, m);
    assert Shares(Flat(trees)[n], want) && !Beats(Flat(trees)[n], Flat(trees)[i], want);
  }

  // ------------------------------------------------------------------ longer requests

  /** a is some ".." and then n ordinary components, and b ends in the same n. */
  ghost predicate EndsAlike(a: seq<string>, b: seq<string>, n: nat) {
    && n <= |a| && n <= |b|
    && (forall k :: 0 <= k < n ==> Ordinary(LastBut(a, k)) && LastBut(a, k) == LastBut(b, k))
    && (forall k :: n <= k < |a| ==> LastBut(a, k) == "..")
  }

  lemma PushKeepsAlike(absA: bool, absB: bool, a: seq<string>, b: seq<string>, n: nat, c: string) returns (n': nat)
    requires EndsAlike(a, b, n)
    ensures EndsAlike(Push(absA, a, c), Push(absB, b, c), n')
  {
    var a', b' := Push(absA, a, c), Push(absB, b, c);
    if c == ".." {
      if n > 0 {
        n' := n - 1;
        assert LastBut(a, 0) == LastBut(b, 0) != "..";
        assert a' == a[..|a| - 1] && b' == b[..|b| - 1];
        assert forall k :: 0 <= k < |a'| ==> LastBut(a', k) == LastBut(a, k + 1);
        assert forall k :: 0 <= k < |b'| ==> LastBut(b', k) == LastBut(b, k + 1);
      } else {
        n' := 0;
        assert |a| > 0 ==> LastBut(a, 0) == "..";
        assert forall k :: 0 < k < |a'| && |a'| > |a| ==> LastBut(a', k) == LastBut(a, k - 1);
      }
    } else if Ordinary(c) {
      n' := n + 1;
      assert forall k :: 0 < k < |a'| ==> LastBut(a', k) == LastBut(a, k - 1);
      assert forall k :: 0 < k < |b'| ==> LastBut(b', k) == LastBut(b, k - 1);
    } else {
      n' := n;
    }
  }

  lemma {:induction false} CleanKeepsAlike(absA: bool, absB: bool, a: seq<string>, b: seq<string>, n: nat,
          parts: seq<string>)
    returns (n': nat)
    requires EndsAlike(a, b, n)
    ensures EndsAlike(Clean(absA, a, parts), Clean(absB, b, parts), n')
    decreases |parts|
  {
    if parts == [] {
      n' := n;
    } else {
      n' := PushKeepsAlike(absA, absB, a, b, n, parts[0]);
      n' := CleanKeepsAlike(absA, absB, Push(absA, a, parts[0]), Push(absB, b, parts[0]), n', parts[1..]);
    }
  }

  lemma AlikeMatchesMore(file: seq<string>, a: seq<string>, b: seq<string>, n: nat)
    requires AllOrdinary(file) && EndsAlike(a, b, n)
    ensures CommonSuffix(file, a) <= CommonSuffix(file, b)
  {
    CommonSuffixIs(file, a);
    CommonSuffixIs(file, b);
    assert n < |a| ==> LastBut(a, n) == "..";
    assert n < |file| ==> Ordinary(LastBut(file, n));
  }

  lemma SplitExtended(p: PathName, q: PathName, extra: seq<string>) returns (n: nat)
    requires q.parts == extra + p.parts && AllOrdinary(extra)
    ensures EndsAlike(SplitPath(p), SplitPath(q), n)
  {
    CleanAppend(q.absolute, [], extra, p.parts);
    CleanKeepsOrdinary(q.absolute, [], extra);
    assert [] + extra == extra;
    assert EndsAlike([], extra, 0);
    n := CleanKeepsAlike(p.absolute, q.absolute, [], extra, 0, p.parts);
  }

  /** Extending a request on the left with ordinary components never loses the match, nor makes it shorter. */
  lemma LongerRequestsMatchMore(flat: seq<Candidate>, p: PathName, q: PathName, extra: seq<string>, i: nat, j: nat)
    requires forall c :: c in flat ==> WellFormed(c.file)
    requires q.parts == extra + p.parts && AllOrdinary(extra)
    requires IsBest(flat, SplitPath(p), i)
    ensures Shares(flat[i], SplitPath(q))
    ensures IsBest(flat, SplitPath(q), j) ==>
              CommonSuffix(flat[i].file.parts, SplitPath(p)) <= CommonSuffix(flat[j].file.parts, SplitPath(q))
  {
    var n := SplitExtended(p, q, extra);
    var a, b := SplitPath(p), SplitPath(q);
    assert flat[i] in flat;
    assert LastBut(a, 0) == flat[i].file.name;
    assert n > 0 && LastBut(b, 0) == LastBut(a, 0);
    AlikeMatchesMore(flat[i].file.parts, a, b, n);
  }

  // ------------------------------------------------------------------ the index

  /** As stored: components reversed, so that a shared suffix is a shared prefix. */
  datatype Entry = Entry(root: PathName, parts: seq<string>, prio: nat)

  function Reversed(s: seq<string>): (r: seq<string>)
    ensures |r| == |s|
    ensures forall k :: 0 <= k < |s| ==> r[k] == s[|s| - 1 - k]
  {
    if s == [] then [] else Reversed(s[1..]) + [s[0]]
  }

  function Stored(c: Candidate): Entry {
    Entry(c.root, Reversed(c.file.parts), c.prio)
  }

  /** Where the files of one name stand in the flat list. */
  function Positions(flat: seq<Candidate>, name: string): (r: seq<nat>)
    ensures forall k :: 0 <= k < |r| ==> r[k] < |flat| && flat[r[k]].file.name == name
    ensures forall k, l :: 0 <= k < l < |r| ==> r[k] < r[l]
    ensures forall j :: 0 <= j < |flat| && flat[j].file.name == name ==> j in r
  {
    if flat == [] then []
    else
      var k := |flat| - 1;
      Positions(flat[..k], name) + if flat[k].file.name == name then [k] else []
  }

  function Bucket(flat: seq<Candidate>, name: string): (r: seq<Entry>) {
    var at := Positions(flat, name);
    seq(|at|, k requires 0 <= k < |at| => Stored(flat[at[k]]))
  }

  function Under(byBase: map<string, seq<Entry>>, name: string): seq<Entry> {
    if name in byBase then byBase[name] else []
  }

  ghost predicate Indexes(byBase: map<string, seq<Entry>>, flat: seq<Candidate>) {
    forall name :: Under(byBase, name) == Bucket(flat, name)
  }

  lemma PositionsOneMore(flat: seq<Candidate>, c: Candidate, name: string)
    ensures Positions(flat + [c], name) == Positions(flat, name) + if c.file.name == name then [|flat|] else []
  {
    var more := flat + [c];
    assert more[..|more| - 1] == flat && more[|more| - 1] == c;
  }

  lemma BucketOneMore(flat: seq<Candidate>, c: Candidate, name: string)
    ensures Bucket(flat + [c], name) == Bucket(flat, name) + if c.file.name == name then [Stored(c)] else []
  {
    var more, at, atMore := flat + [c], Positions(flat, name), Positions(flat + [c], name);
    PositionsOneMore(flat, c, name);
    var was, now := Bucket(flat, name), Bucket(more, name);
    forall k | 0 <= k < |at| ensures now[k] == was[k] {
      assert atMore[k] == at[k] && more[at[k]] == flat[at[k]];
    }
    if c.file.name == name {
      assert atMore[|at|] == |flat| && more[|flat|] == c;
      assert now == was + [Stored(c)];
    } else {
      assert now == was;
    }
  }

  lemma IndexOneMore(byBase: map<string, seq<Entry>>, flat: seq<Candidate>, c: Candidate)
    requires Indexes(byBase, flat)
    ensures Indexes(byBase[c.file.name := Under(byBase, c.file.name) + [Stored(c)]], flat + [c])
  {
    var after := byBase[c.file.name := Under(byBase, c.file.name) + [Stored(c)]];
    forall name ensures Under(after, name) == Bucket(flat + [c], name) {
      BucketOneMore(flat, c, name);
      assert Under(byBase, name) == Bucket(flat, name);
    }
  }

  method CommonPrefixLen(a: seq<string>, b: seq<string>) returns (n: nat)
    ensures n <= |a| && n <= |b| && a[..n] == b[..n]
    ensures n < |a| && n < |b| ==> a[n] != b[n]
  {
    var most := if |a| < |b| then |a| else |b|;
    n := 0;
    while n < most && a[n] == b[n]
      invariant n <= most && a[..n] == b[..n]
    {
      n := n + 1;
    }
  }

  lemma PrefixOfReversed(a: seq<string>, b: seq<string>, n: nat)
    requires n <= |a| && n <= |b| && Reversed(a)[..n] == Reversed(b)[..n]
    requires n < |a| && n < |b| ==> Reversed(a)[n] != Reversed(b)[n]
    ensures n == CommonSuffix(a, b)
  {
    forall k | 0 <= k < n ensures LastBut(a, k) == LastBut(b, k) {
      assert Reversed(a)[..n][k] == Reversed(b)[..n][k];
    }
    SharesExactlyOnce(a, b, n);
  }

  lemma RelativeIsClean(f: File)
    requires WellFormed(f)
    ensures SplitPath(PathName(false, f.parts)) == f.parts
  {
    CleanKeepsOrdinary(false, [], f.parts);
    assert [] + f.parts == f.parts;
  }

  lemma AppendNext<T>(a: seq<T>, b: seq<T>, i: nat)
    requires i < |b|
    ensures a + b[..i] + [b[i]] == a + b[..i + 1]
  {
  }

  /** Append one tree's files to their buckets, in walk order. */
  method AddTree(byBase: map<string, seq<Entry>>, root: PathName, prio: nat, files: seq<File>,
          ghost flat: seq<Candidate>)
    returns (found: map<string, seq<Entry>>)
    requires Indexes(byBase, flat) && forall i :: 0 <= i < |files| ==> WellFormed(files[i])
    ensures Indexes(found, flat + Tagged(root, prio, files))
  {
    found := byBase;
    ghost var tagged := Tagged(root, prio, files);
    assert flat + tagged[..0] == flat;
    for i := 0 to |files|
      invariant Indexes(found, flat + tagged[..i])
    {
      var f := files[i];
      RelativeIsClean(f);
      var entry := Entry(root, Reversed(SplitPath(PathName(false, f.parts))), prio);
      IndexOneMore(found, flat + tagged[..i], tagged[i]);
      assert tagged[i].file == f && Stored(tagged[i]) == entry;
      AppendNext(flat, tagged, i);
      found := found[f.name := Under(found, f.name) + [entry]];
    }
    assert tagged[..|files|] == tagged;
  }

  /** Among the first n files at the given positions, the b-th is the best, and the first of its equals. */
  ghost predicate Leads(flat: seq<Candidate>, at: seq<nat>, want: seq<string>, b: nat, n: nat) {
    && b < n <= |at| && (forall k :: 0 <= k < |at| ==> at[k] < |flat|)
    && (forall k :: 0 <= k < n ==> !Beats(flat[at[k]], flat[at[b]], want))
    && (forall k :: 0 <= k < b ==> Beats(flat[at[b]], flat[at[k]], want))
  }

  lemma LeadOn(flat: seq<Candidate>, at: seq<nat>, want: seq<string>, b: nat, n: nat)
    requires Leads(flat, at, want, b, n) && n < |at|
    ensures Beats(flat[at[n]], flat[at[b]], want) ==> Leads(flat, at, want, n, n + 1)
    ensures !Beats(flat[at[n]], flat[at[b]], want) ==> Leads(flat, at, want, b, n + 1)
  {
    forall k | 0 <= k < n && Beats(flat[at[n]], flat[at[b]], want)
      ensures Beats(flat[at[n]], flat[at[k]], want)
    {
      assert !Beats(flat[at[k]], flat[at[b]], want);
    }
  }

  /** The scan over one bucket. */
  method BestOf(cands: seq<Entry>, want: seq<string>, ghost flat: seq<Candidate>, ghost clean: seq<string>)
    returns (best: Option<nat>)
    requires want == Reversed(clean) && want != [] && cands == Bucket(flat, want[0])
    ensures best.None? <==> cands == []
    ensures best.Some? ==> Leads(flat, Positions(flat, want[0]), clean, best.value, |cands|)
  {
    ghost var at := Positions(flat, want[0]);
    best := None;
    var bestScore := 0;
    for i := 0 to |cands|
      invariant best.None? <==> i == 0
      invariant best.Some? ==> Leads(flat, at, clean, best.value, i)
      invariant bestScore == if best.None? then 0 else CommonSuffix(flat[at[best.value]].file.parts, clean)
    {
      var cand := cands[i];
      assert cand == Stored(flat[at[i]]);
      var score := CommonPrefixLen(cand.parts, want);
      PrefixOfReversed(flat[at[i]].file.parts, clean, score);
      if best.Some? {
        LeadOn(flat, at, clean, best.value, i);
        assert cands[best.value] == Stored(flat[at[best.value]]);
      }
      if score > bestScore {
      } else if score < bestScore || best.None? {
        if best.Some? { continue; }
      } else if cand.prio != cands[best.value].prio {
        if cand.prio > cands[best.value].prio { continue; }
      } else if |cand.parts| >= |cands[best.value].parts| {
        continue;
      }
      best, bestScore := Some(i), score;
    }
  }

  class Index {
    const byBase: map<string, seq<Entry>>
    const skipped: seq<PathName>

    ghost predicate Holds(trees: seq<Tree>) {
      AllWellFormed(trees) && Indexes(byBase, Flat(trees))
    }

    /** A tree that cannot be resolved is recorded and skipped; priorities still count it. */
    constructor New(trees: seq<Tree>)
      requires AllWellFormed(trees)
      ensures Holds(trees)
      ensures skipped == Unresolved(trees)
    {
      var found: map<string, seq<Entry>>, missing: seq<PathName> := map[], [];
      for prio := 0 to |trees|
        invariant Indexes(found, Flat(trees[..prio]))
        invariant missing == Unresolved(trees[..prio])
      {
        ghost var flat := Flat(trees[..prio]);
        assert trees[..prio + 1][..prio] == trees[..prio];
        match trees[prio].walk {
          case None =>
            missing := missing + [trees[prio].root];
            assert flat + [] == flat;
          case Some(files) =>
            found := AddTree(found, trees[prio].root, prio, files, flat);
        }
      }
      assert trees[..|trees|] == trees;
      byBase, skipped := found, missing;
    }

    /** The path of the file the request means: the cleaned path of its tree's root, and below it where
        the walk found it. */
    method Find(request: PathName, ghost trees: seq<Tree>) returns (hit: Option<PathName>)
      requires Holds(trees)
      ensures hit.None? <==> !exists j :: 0 <= j < |Flat(trees)| && Shares(Flat(trees)[j], SplitPath(request))
      ensures hit.Some? ==> exists i: nat :: IsBest(Flat(trees), SplitPath(request), i)
                              && hit.value == FullPath(Flat(trees)[i])
    {
      var clean := SplitPath(request);
      if clean == [] { return None; }
      var want := Reversed(clean);
      var cands := Under(byBase, want[0]);
      ghost var flat := Flat(trees);
      assert cands == Bucket(flat, want[0]);
      var best := BestOf(cands, want, flat, clean);
      match best {
        case None => return None;
        case Some(i) =>
          ghost var at := Positions(flat, want[0]);
          LeaderIsBest(flat, at, clean, i);
          ReversedTwice(flat[at[i]].file.parts);
          FilesAreWellFormed(trees, at[i]);
          JoinedIsBelow(cands[i].root, Reversed(cands[i].parts));
          return Some(Join(cands[i].root, Reversed(cands[i].parts)));
      }
    }
  }

  function Unresolved(trees: seq<Tree>): seq<PathName> {
    if trees == [] then []
    else
      var k := |trees| - 1;
      Unresolved(trees[..k]) + if trees[k].walk.None? then [trees[k].root] else []
  }

  lemma LeaderIsBest(flat: seq<Candidate>, at: seq<nat>, want: seq<string>, b: nat)
    requires want != [] && at == Positions(flat, want[|want| - 1])
    requires Leads(flat, at, want, b, |at|)
    ensures IsBest(flat, want, at[b])
  {
    forall j | 0 <= j < |flat| && Shares(flat[j], want)
      ensures !Beats(flat[j], flat[at[b]], want) && (j < at[b] ==> Beats(flat[at[b]], flat[j], want))
    {
      var k :| 0 <= k < |at| && at[k] == j;
      assert b < k ==> at[b] < at[k];
    }
  }

  lemma ReversedTwice(s: seq<string>)
    ensures Reversed(Reversed(s)) == s
  {
  }
}
