/** Shorter views of the daily statistics: tails of the same series, with everything derived from them worked out again.

    Floats are reals and counters do not wrap. */
module Stats {
  import opened Orders

  const UNRESOLVED := "unresolved"

  datatype Counts = Counts(served: nat, aborted: nat, notFound: nat, err5xx: nat) {
    function Total(): nat { served + aborted + notFound + err5xx }
  }

  datatype ProbeDay = ProbeDay(ok: nat, fail: nat, latencies: (nat, nat, nat, nat))

  datatype ThruDay = ThruDay(n: nat, p50: real, p90: real)

  type Series<T> = map<string, seq<T>>

  /** `other` stands for the fields that slicing leaves alone. */
  datatype Snapshot = Snapshot(
    days: seq<string>, smooth: nat,
    traffic: map<string, Series<Counts>>, hosts: seq<string>,
    clients: seq<nat>, buildIds: seq<nat>, requests: seq<nat>,
    probes: Series<ProbeDay>, probeHosts: seq<string>, probeTotal: nat, probeOk: nat,
    thru: Series<ThruDay>, thruHosts: seq<string>, thruMax: real,
    country: Series<nat>, countryClients: Series<nat>, countries: seq<string>,
    cacheBytes: seq<real>, cacheTmp: seq<real>, cacheEntries: seq<real>, fsFree: seq<real>,
    other: string)

  // ------------------------------------------------------------------ totals

  function SumSeq(v: seq<nat>): nat {
    if v == [] then 0 else SumSeq(v[..|v| - 1]) + v[|v| - 1]
  }

  function Totals(v: seq<Counts>): seq<nat> {
    seq(|v|, i requires 0 <= i < |v| => v[i].Total())
  }

  function Oks(v: seq<ProbeDay>): seq<nat> {
    seq(|v|, i requires 0 <= i < |v| => v[i].ok)
  }

  function Probed(v: seq<ProbeDay>): seq<nat> {
    seq(|v|, i requires 0 <= i < |v| => v[i].ok + v[i].fail)
  }

  function Samples(v: seq<ThruDay>): seq<nat> {
    seq(|v|, i requires 0 <= i < |v| => v[i].n)
  }

  /** The total of two stretches of days is that of the first and that of the second; one day's is its own. */
  lemma {:induction false} SumOfStretches(a: seq<nat>, b: seq<nat>)
    ensures SumSeq(a + b) == SumSeq(a) + SumSeq(b)
    ensures forall x: nat :: SumSeq([x]) == x
    decreases |b|
  {
    forall x: nat ensures SumSeq([x]) == x {
      assert [x][..0] == [] && SumSeq([]) == 0;
    }
    if b == [] {
      assert a + b == a;
    } else {
      SumOfStretches(a, b[..|b| - 1]);
      assert (a + b)[..|a + b| - 1] == a + b[..|b| - 1];
    }
  }

  /** The sum over a map, in whatever order it is ranged over. */
  ghost function SumMap(m: map<string, nat>): nat
    decreases |m|
  {
    if m == map[] then 0
    else
      var k :| k in m;
      m[k] + SumMap(m - {k})
  }

  lemma {:induction false} SumMapAny(m: map<string, nat>, k: string)
    requires k in m
    ensures SumMap(m) == m[k] + SumMap(m - {k})
    decreases |m|
  {
    var l :| l in m && SumMap(m) == m[l] + SumMap(m - {l});
    if l != k {
      SumMapAny(m - {l}, k);
      SumMapAny(m - {k}, l);
      assert m - {l} - {k} == m - {k} - {l};
    }
  }

  /** Ranging over a map while adding up. */
  method AddUp(m: map<string, nat>) returns (sum: nat)
    ensures sum == SumMap(m)
  {
    sum := 0;
    var todo := m;
    while todo != map[]
      invariant forall k :: k in todo ==> k in m && todo[k] == m[k]
      invariant sum + SumMap(todo) == SumMap(m)
      decreases |todo|
    {
      var k :| k in todo;
      SumMapAny(todo, k);
      sum := sum + todo[k];
      todo := todo - {k};
    }
  }

  ghost function TrafficVolume(traffic: map<string, Series<Counts>>): map<string, nat> {
    map h | h in traffic :: SumMap(map e | e in traffic[h] :: SumSeq(Totals(traffic[h][e])))
  }

  function ProbeVolume(probes: Series<ProbeDay>): map<string, nat> {
    map h | h in probes :: SumSeq(Probed(probes[h]))
  }

  function ProbeOks(probes: Series<ProbeDay>): map<string, nat> {
    map h | h in probes :: SumSeq(Oks(probes[h]))
  }

  function ThruVolume(thru: Series<ThruDay>): map<string, nat> {
    map h | h in thru :: SumSeq(Samples(thru[h]))
  }

  function CountryVolume(country: Series<nat>): map<string, nat> {
    map c | c in country :: SumSeq(country[c])
  }

  method WeighTraffic(traffic: map<string, Series<Counts>>) returns (volume: map<string, nat>)
    ensures volume == TrafficVolume(traffic)
  {
    volume := map[];
    var todo := traffic.Keys;
    while todo != {}
      invariant todo <= traffic.Keys
      invariant volume.Keys == traffic.Keys - todo
      invariant forall h :: h in volume ==> volume[h] == TrafficVolume(traffic)[h]
      decreases |todo|
    {
      var h :| h in todo;
      var sum := AddUp(map e | e in traffic[h] :: SumSeq(Totals(traffic[h][e])));
      volume := volume[h := sum];
      todo := todo - {h};
    }
  }

  // ------------------------------------------------------------------ orders

  function Volume(w: map<string, nat>, x: string): nat {
    if x in w then w[x] else 0
  }

  /** Volume descending, then by name; when `pinned`, what was never resolved comes first regardless. */
  predicate Precedes(w: map<string, nat>, pinned: bool, x: string, y: string) {
    if pinned && (x == UNRESOLVED) != (y == UNRESOLVED) then x == UNRESOLVED
    else Volume(w, x) > Volume(w, y) || (Volume(w, x) == Volume(w, y) && StringLe(x, y))
  }

  function ByVolume(w: map<string, nat>, pinned: bool): (string, string) -> bool {
    (x, y) => Precedes(w, pinned, x, y)
  }

  lemma ByVolumeOrders(w: map<string, nat>, pinned: bool)
    ensures TotalPreorder(ByVolume(w, pinned))
    ensures forall names :: NoTies(ByVolume(w, pinned), names)
  {
    var le := ByVolume(w, pinned);
    forall x, y ensures (le(x, y) || le(y, x)) && (le(x, y) && le(y, x) ==> x == y) {
      StringLeTotal(x, y);
    }
    forall x, y, z | le(x, y) && le(y, z) ensures le(x, z) {
      if Volume(w, x) == Volume(w, y) == Volume(w, z) && StringLe(x, y) && StringLe(y, z) {
        StringLeTransitive(x, y, z);
      }
    }
  }

  method SortByVolume(names: seq<string>, w: map<string, nat>, pinned: bool) returns (r: seq<string>)
    ensures SameElements(r, names) && Sorted(ByVolume(w, pinned), r)
  {
    var a := new string[|names|](i requires 0 <= i < |names| => names[i]);
    assert a[..] == names;
    ByVolumeOrders(w, pinned);
    Sort(a, ByVolume(w, pinned));
    r := a[..];
  }

  // ------------------------------------------------------------------ smoothing

  /** The moving-average window for a view of so many days. */
  function SmoothWindowFor(days: nat): nat {
    if days <= 14 then 1 else if days <= 60 then 3 else 7
  }

  type Pair = (real, real)

  function SumPairs(v: seq<Pair>): Pair {
    if v == [] then (0.0, 0.0)
    else
      var s := SumPairs(v[..|v| - 1]);
      (s.0 + v[|v| - 1].0, s.1 + v[|v| - 1].1)
  }

  /** The average of the last `win` values up to the i-th, or of as many as there are. */
  function AverageAt(v: seq<Pair>, win: nat, i: nat): Pair
    requires i < |v| && win >= 1
  {
    var lo := if i + 1 < win then 0 else i + 1 - win;
    var s, cnt := SumPairs(v[lo..i + 1]), (i + 1 - lo) as real;
    (s.0 / cnt, s.1 / cnt)
  }

  lemma SumOneMore(v: seq<Pair>, lo: nat, j: nat)
    requires lo <= j < |v|
    ensures var s := SumPairs(v[lo..j]); SumPairs(v[lo..j + 1]) == (s.0 + v[j].0, s.1 + v[j].1)
  {
    assert v[lo..j + 1][..j - lo] == v[lo..j];
  }

  function AtLeastOne(win: nat): nat {
    if win < 1 then 1 else win
  }

  method SmoothPairs(vals: seq<Pair>, win: nat) returns (out: seq<Pair>)
    ensures |out| == |vals|
    ensures forall i :: 0 <= i < |vals| ==> out[i] == AverageAt(vals, AtLeastOne(win), i)
  {
    var w := AtLeastOne(win);
    out := [];
    for i := 0 to |vals|
      invariant |out| == i
      invariant forall j :: 0 <= j < i ==> out[j] == AverageAt(vals, w, j)
    {
      var lo := if i + 1 < w then 0 else i + 1 - w;
      var a, b := 0.0, 0.0;
      for j := lo to i + 1
        invariant (a, b) == SumPairs(vals[lo..j])
      {
        SumOneMore(vals, lo, j);
        a, b := a + vals[j].0, b + vals[j].1;
      }
      var cnt := (i + 1 - lo) as real;
      out := out + [(a / cnt, b / cnt)];
    }
  }

  /** A window of one changes nothing. */
  lemma RawIsUnchanged(vals: seq<Pair>, i: nat)
    requires i < |vals|
    ensures AverageAt(vals, 1, i) == vals[i]
  {
    var one := vals[i..i + 1];
    assert one == [vals[i]] && one[..0] == [];
    assert SumPairs(one[..0]) == (0.0, 0.0);
    var sum := SumPairs(one);
    assert sum == (0.0 + vals[i].0, 0.0 + vals[i].1) == vals[i];
    assert (i + 1 - i) as real == 1.0;
    assert AverageAt(vals, 1, i) == (sum.0 / 1.0, sum.1 / 1.0);
  }

  lemma {:induction false} SumOfPairs(a: seq<Pair>, b: seq<Pair>)
    ensures SumPairs(a + b) == (SumPairs(a).0 + SumPairs(b).0, SumPairs(a).1 + SumPairs(b).1)
    ensures forall p :: SumPairs([p]) == p
    decreases |b|
  {
    forall p ensures SumPairs([p]) == p {
      assert [p][..0] == [] && SumPairs([]) == (0.0, 0.0);
    }
    if b == [] {
      assert a + b == a;
    } else {
      SumOfPairs(a, b[..|b| - 1]);
      assert (a + b)[..|a + b| - 1] == a + b[..|b| - 1];
    }
  }

  /** The average of so many values, that many times over, is their sum: of `win` values, or of all there are. */
  lemma AverageIsTheMean(v: seq<Pair>, win: nat, i: nat, n: nat)
    requires i < |v| && 1 <= n && (if i + 1 < win then n == i + 1 else n == win)
    ensures AverageAt(v, win, i).0 * n as real == SumPairs(v[i + 1 - n..i + 1]).0
    ensures AverageAt(v, win, i).1 * n as real == SumPairs(v[i + 1 - n..i + 1]).1
  {
    var s := SumPairs(v[i + 1 - n..i + 1]);
    TimesBack(s.0, n);
    TimesBack(s.1, n);
  }

  lemma TimesBack(x: real, n: nat)
    requires n >= 1
    ensures x / n as real * n as real == x
  {
  }

  function ThruPairs(series: seq<ThruDay>): seq<Pair> {
    seq(|series|, i requires 0 <= i < |series| => (series[i].p50, series[i].p90))
  }

  function P90At(thru: Series<ThruDay>, win: nat, h: string, i: nat): real
    requires h in thru && i < |thru[h]|
  {
    AverageAt(ThruPairs(thru[h]), AtLeastOne(win), i).1
  }

  /** The highest smoothed value of any host, or zero. */
  ghost predicate IsTop(thru: Series<ThruDay>, win: nat, top: real) {
    && top >= 0.0
    && (forall h, i :: h in thru && 0 <= i < |thru[h]| ==> P90At(thru, win, h, i) <= top)
    && (top > 0.0 ==> exists h, i :: h in thru && 0 <= i < |thru[h]| && P90At(thru, win, h, i) == top)
  }

  /** The scale all throughput charts share. */
  ghost predicate IsScale(thru: Series<ThruDay>, win: nat, scale: real) {
    exists top :: IsTop(thru, win, top) && scale == if top == 0.0 then 1.0 else top
  }

  lemma ScaleIsUnique(thru: Series<ThruDay>, win: nat, a: real, b: real)
    requires IsScale(thru, win, a) && IsScale(thru, win, b)
    ensures a == b
  {
    var s :| IsTop(thru, win, s) && a == if s == 0.0 then 1.0 else s;
    var t :| IsTop(thru, win, t) && b == if t == 0.0 then 1.0 else t;
    assert s <= t && t <= s;
  }

  /** The highest of what was there and one smoothed series. */
  method Raise(before: real, smoothed: seq<Pair>) returns (top: real)
    ensures before <= top
    ensures forall j :: 0 <= j < |smoothed| ==> smoothed[j].1 <= top
    ensures top > before ==> exists j :: 0 <= j < |smoothed| && smoothed[j].1 == top
  {
    top := before;
    for i := 0 to |smoothed|
      invariant before <= top
      invariant forall j :: 0 <= j < i ==> smoothed[j].1 <= top
      invariant top > before ==> exists j :: 0 <= j < i && smoothed[j].1 == top
    {
      if smoothed[i].1 > top { top := smoothed[i].1; }
    }
  }

  method SharedScale(thru: Series<ThruDay>, win: nat) returns (scale: real)
    ensures IsScale(thru, win, scale)
  {
    var top := 0.0;
    var todo := thru.Keys;
    while todo != {}
      invariant todo <= thru.Keys
      invariant IsTop(thru - todo, win, top)
      decreases |todo|
    {
      var h :| h in todo;
      var smoothed := SmoothPairs(ThruPairs(thru[h]), win);
      var before := top;
      top := Raise(before, smoothed);
      assert thru - (todo - {h}) == (thru - todo)[h := thru[h]];
      OneHostMore(thru - todo, thru - (todo - {h}), thru[h], win, before, top, h, smoothed);
      todo := todo - {h};
    }
    assert thru - {} == thru;
    scale := if top == 0.0 then 1.0 else top;
  }

  lemma OneHostMore(was: Series<ThruDay>, now: Series<ThruDay>, series: seq<ThruDay>, win: nat, before: real,
          top: real, h: string, smoothed: seq<Pair>)
    requires IsTop(was, win, before) && now == was[h := series] && h !in was && before <= top
    requires |smoothed| == |series| && forall j :: 0 <= j < |series| ==>
        smoothed[j] == AverageAt(ThruPairs(series), AtLeastOne(win), j)
    requires forall j :: 0 <= j < |series| ==> smoothed[j].1 <= top
    requires top > before ==> exists j :: 0 <= j < |series| && smoothed[j].1 == top
    ensures IsTop(now, win, top)
  {
    forall j | 0 <= j < |series| ensures P90At(now, win, h, j) == smoothed[j].1 {
    }
    forall g, i | g in now && 0 <= i < |now[g]| ensures P90At(now, win, g, i) <= top {
      if g != h { assert P90At(was, win, g, i) <= before; }
    }
    if top > before {
      var j :| 0 <= j < |series| && P90At(now, win, h, j) == top;
    } else if top > 0.0 {
      var g, i :| g in was && 0 <= i < |was[g]| && P90At(was, win, g, i) == before;
      assert P90At(now, win, g, i) == top;
    }
  }
}
