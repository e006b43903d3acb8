/** Cutting a view of the last days out of a longer one. */
module StatsSlice {
  import opened Orders
  import opened Stats

  function Cut<T>(v: seq<T>, from: nat, n: nat): seq<T>
    requires from <= n
  {
    if |v| < n then v else v[from..]
  }

  function CutAll<T>(m: Series<T>, from: nat, n: nat): Series<T>
    requires from <= n
  {
    map k | k in m :: Cut(m[k], from, n)
  }

  function CutTraffic(traffic: map<string, Series<Counts>>, from: nat, n: nat): map<string, Series<Counts>>
    requires from <= n
  {
    map h | h in traffic :: CutAll(traffic[h], from, n)
  }

  /** A country without a series of clients gets an empty one. */
  function CutClients(country: Series<nat>, clients: Series<nat>, from: nat, n: nat): Series<nat>
    requires from <= n
  {
    map c | c in country :: if c in clients then Cut(clients[c], from, n) else []
  }

  /** Totals, orders and the shared scale are those of the series beside them. */
  ghost predicate Derived(s: Snapshot) {
    && Sorted(ByVolume(TrafficVolume(s.traffic), true), s.hosts)
    && s.probeTotal == SumMap(ProbeVolume(s.probes)) && s.probeOk == SumMap(ProbeOks(s.probes))
    && Sorted(ByVolume(ProbeVolume(s.probes), true), s.probeHosts)
    && IsScale(s.thru, s.smooth, s.thruMax)
    && Sorted(ByVolume(ThruVolume(s.thru), true), s.thruHosts)
    && Sorted(ByVolume(CountryVolume(s.country), false), s.countries)
  }

  ghost predicate MapTails(src: Snapshot, from: nat, n: nat, out: Snapshot)
    requires from <= n
  {
    && out.traffic == CutTraffic(src.traffic, from, n)
    && out.probes == CutAll(src.probes, from, n) && out.thru == CutAll(src.thru, from, n)
    && out.country == CutAll(src.country, from, n)
        && out.countryClients == CutClients(src.country, src.countryClients, from, n)
  }

  ghost predicate SeqTails(src: Snapshot, from: nat, n: nat, out: Snapshot)
    requires from <= n
  {
    && out.clients == Cut(src.clients, from, n) && out.buildIds == Cut(src.buildIds, from, n)
        && out.requests == Cut(src.requests, from, n)
    && out.cacheBytes == Cut(src.cacheBytes, from, n) && out.cacheTmp == Cut(src.cacheTmp, from, n)
    && out.cacheEntries == Cut(src.cacheEntries, from, n) && out.fsFree == Cut(src.fsFree, from, n)
  }

  /** The series of `out` are the tails of those of `src`. */
  ghost predicate Tails(src: Snapshot, from: nat, n: nat, out: Snapshot)
    requires from <= n == |src.days|
  {
    out.days == src.days[from..] && out.other == src.other && MapTails(src, from, n, out) && SeqTails(src, from, n, out)
  }

  ghost predicate SameNames(src: Snapshot, out: Snapshot) {
    && SameElements(out.hosts, src.hosts) && SameElements(out.probeHosts, src.probeHosts)
    && SameElements(out.thruHosts, src.thruHosts) && SameElements(out.countries, src.countries)
  }

  /** A view of the last `days` days, today not counted. */
  ghost predicate IsSlice(src: Snapshot, days: nat, out: Snapshot) {
    var n, keep := |src.days|, days + 1;
    if keep >= n then out == src.(smooth := SmoothWindowFor(days))
    else out.smooth == SmoothWindowFor(days) && Tails(src, n - keep, n, out) && SameNames(src, out) && Derived(out)
  }

  method SliceSnapshot(src: Snapshot, days: nat) returns (out: Snapshot)
    ensures IsSlice(src, days, out)
  {
    var n, keep := |src.days|, days + 1;
    if keep >= n {
      return src.(smooth := SmoothWindowFor(days));
    }
    var from := n - keep;
    out := src.(days := src.days[from..], smooth := SmoothWindowFor(days));

    var traffic := CutTraffic(src.traffic, from, n);
    var volume := WeighTraffic(traffic);
    var hosts := SortByVolume(src.hosts, volume, true);
    out := out.(traffic := traffic, hosts := hosts,
                clients := Cut(src.clients, from, n), buildIds := Cut(src.buildIds, from, n),
                  requests := Cut(src.requests, from, n));

    var probes := CutAll(src.probes, from, n);
    var probeTotal := AddUp(ProbeVolume(probes));
    var probeOk := AddUp(ProbeOks(probes));
    var probeHosts := SortByVolume(src.probeHosts, ProbeVolume(probes), true);
    out := out.(probes := probes, probeTotal := probeTotal, probeOk := probeOk, probeHosts := probeHosts);

    var thru := CutAll(src.thru, from, n);
    var scale := SharedScale(thru, out.smooth);
    var thruHosts := SortByVolume(src.thruHosts, ThruVolume(thru), true);
    out := out.(thru := thru, thruMax := scale, thruHosts := thruHosts);

    var country := CutAll(src.country, from, n);
    var countries := SortByVolume(src.countries, CountryVolume(country), false);
    out := out.(country := country, countryClients := CutClients(src.country, src.countryClients, from, n),
      countries := countries,
                cacheBytes := Cut(src.cacheBytes, from, n), cacheTmp := Cut(src.cacheTmp, from, n),
                cacheEntries := Cut(src.cacheEntries, from, n), fsFree := Cut(src.fsFree, from, n));
  }

  // ------------------------------------------------------------------ what a slice is worth

  ghost predicate Full<T>(m: Series<T>, n: nat) {
    forall k :: k in m ==> |m[k]| == n
  }

  /** Every series has a value for every day; the cache's are there or not at all. */
  ghost predicate AllFull(s: Snapshot) {
    var n := |s.days|;
    && n >= 1
    && (forall h :: h in s.traffic ==> Full(s.traffic[h], n))
    && |s.clients| == |s.buildIds| == |s.requests| == n
    && Full(s.probes, n) && Full(s.thru, n) && Full(s.country, n)
    && s.countryClients.Keys == s.country.Keys && Full(s.countryClients, n)
    && (|s.cacheBytes| == |s.cacheTmp| == |s.cacheEntries| == |s.fsFree|)
    && (|s.cacheBytes| == n || |s.cacheBytes| == 0)
  }

  ghost predicate WellFormed(s: Snapshot) {
    AllFull(s) && s.smooth == SmoothWindowFor(|s.days| - 1) && Derived(s)
  }

  /** There is only one view of a given length. */
  lemma SliceIsUnique(src: Snapshot, days: nat, x: Snapshot, y: Snapshot)
    requires IsSlice(src, days, x) && IsSlice(src, days, y)
    ensures x == y
  {
    if days + 1 < |src.days| {
      SameOrder(TrafficVolume(x.traffic), true, x.hosts, y.hosts, src.hosts);
      SameOrder(ProbeVolume(x.probes), true, x.probeHosts, y.probeHosts, src.probeHosts);
      SameOrder(ThruVolume(x.thru), true, x.thruHosts, y.thruHosts, src.thruHosts);
      SameOrder(CountryVolume(x.country), false, x.countries, y.countries, src.countries);
      ScaleIsUnique(x.thru, x.smooth, x.thruMax, y.thruMax);
    }
  }

  /** The last `keep` of a series, day by day. */
  ghost predicate LastOf<T>(src: seq<T>, keep: nat, out: seq<T>) {
    |out| == keep <= |src| && forall i :: 0 <= i < keep ==> out[i] == src[|src| - keep + i]
  }

  ghost predicate LastOfAll<T(!new)>(src: Series<T>, keep: nat, out: Series<T>) {
    out.Keys == src.Keys && forall k :: k in src ==> LastOf(src[k], keep, out[k])
  }

  /** A series the cache never filled stays as it was. */
  ghost predicate LastOrNone<T>(src: seq<T>, keep: nat, out: seq<T>) {
    if src == [] then out == [] else LastOf(src, keep, out)
  }

  ghost predicate LastOfMaps(src: Snapshot, keep: nat, out: Snapshot) {
    && out.traffic.Keys == src.traffic.Keys
    && (forall h :: h in src.traffic ==> LastOfAll(src.traffic[h], keep, out.traffic[h]))
    && LastOfAll(src.probes, keep, out.probes) && LastOfAll(src.thru, keep, out.thru)
    && LastOfAll(src.country, keep, out.country) && LastOfAll(src.countryClients, keep, out.countryClients)
  }

  ghost predicate LastOfSeqs(src: Snapshot, keep: nat, out: Snapshot) {
    && LastOf(src.clients, keep, out.clients) && LastOf(src.buildIds, keep, out.buildIds)
    && LastOf(src.requests, keep, out.requests)
    && LastOrNone(src.cacheBytes, keep, out.cacheBytes) && LastOrNone(src.cacheTmp, keep, out.cacheTmp)
    && LastOrNone(src.cacheEntries, keep, out.cacheEntries) && LastOrNone(src.fsFree, keep, out.fsFree)
  }

  lemma CutIsLast<T>(v: seq<T>, keep: nat, n: nat)
    requires keep <= n && (|v| == n || |v| == 0)
    ensures |v| == n ==> LastOf(v, keep, Cut(v, n - keep, n))
    ensures n > 0 ==> LastOrNone(v, keep, Cut(v, n - keep, n))
  {
  }

  lemma CutAllIsLast<T(!new)>(m: Series<T>, keep: nat, n: nat)
    requires keep <= n && Full(m, n)
    ensures LastOfAll(m, keep, CutAll(m, n - keep, n))
  {
    forall k | k in m ensures LastOf(m[k], keep, Cut(m[k], n - keep, n)) {
      CutIsLast(m[k], keep, n);
    }
  }

  lemma CutTrafficIsLast(t: map<string, Series<Counts>>, keep: nat, n: nat)
    requires keep <= n && forall h :: h in t ==> Full(t[h], n)
    ensures CutTraffic(t, n - keep, n).Keys == t.Keys
    ensures forall h :: h in t ==> LastOfAll(t[h], keep, CutTraffic(t, n - keep, n)[h])
  {
    forall h | h in t ensures LastOfAll(t[h], keep, CutAll(t[h], n - keep, n)) {
      CutAllIsLast(t[h], keep, n);
    }
  }

  lemma CutClientsIsLast(country: Series<nat>, clients: Series<nat>, keep: nat, n: nat)
    requires keep <= n && country.Keys == clients.Keys && Full(clients, n)
    ensures LastOfAll(clients, keep, CutClients(country, clients, n - keep, n))
  {
    forall c | c in clients ensures LastOf(clients[c], keep, Cut(clients[c], n - keep, n)) {
      CutIsLast(clients[c], keep, n);
    }
  }

  lemma MapTailsAreLast(src: Snapshot, keep: nat, n: nat, out: Snapshot)
    requires AllFull(src) && keep <= n == |src.days| && MapTails(src, n - keep, n, out)
    ensures LastOfMaps(src, keep, out)
  {
    CutTrafficIsLast(src.traffic, keep, n);
    CutAllIsLast(src.probes, keep, n);
    CutAllIsLast(src.thru, keep, n);
    CutAllIsLast(src.country, keep, n);
    CutClientsIsLast(src.country, src.countryClients, keep, n);
  }

  lemma SeqTailsAreLast(src: Snapshot, keep: nat, n: nat, out: Snapshot)
    requires AllFull(src) && keep <= n == |src.days| && SeqTails(src, n - keep, n, out)
    ensures LastOfSeqs(src, keep, out)
  {
    CutIsLast(src.clients, keep, n);
    CutIsLast(src.buildIds, keep, n);
    CutIsLast(src.requests, keep, n);
    CutIsLast(src.cacheBytes, keep, n);
    CutIsLast(src.cacheTmp, keep, n);
    CutIsLast(src.cacheEntries, keep, n);
    CutIsLast(src.fsFree, keep, n);
  }

  /** A view of fewer days shows the last of them and today, in every series. */
  lemma OnlyTheLastDays(src: Snapshot, days: nat, out: Snapshot)
    requires AllFull(src) && days + 1 < |src.days| && IsSlice(src, days, out)
    ensures LastOf(src.days, days + 1, out.days) && out.other == src.other
    ensures LastOfMaps(src, days + 1, out) && LastOfSeqs(src, days + 1, out)
  {
    SliceTails(src, days, out);
    MapTailsAreLast(src, days + 1, |src.days|, out);
    SeqTailsAreLast(src, days + 1, |src.days|, out);
  }

  /** A name without a series of its own has no volume. */
  predicate IsVolume(volume: map<string, nat>, name: string, v: nat) {
    if name in volume then v == volume[name] else v == 0
  }

  /** Nothing comes before something busier than it, save what was never resolved, which comes before all else. */
  ghost predicate BusiestFirst(names: seq<string>, volume: map<string, nat>, pinned: bool) {
    forall i, j, v, w :: 0 <= i < j < |names| && IsVolume(volume, names[i], v) && IsVolume(volume, names[j], w) ==>
        if pinned && names[i] == "unresolved" then true
        else (pinned ==> names[j] != "unresolved") && w <= v && (w == v ==> StringLe(names[i], names[j]))
  }

  /** A shorter view lists the same names, the busiest of its own days first, and is smoothed as its length asks. */
  lemma BusiestComeFirst(src: Snapshot, days: nat, out: Snapshot)
    requires days + 1 < |src.days| && IsSlice(src, days, out)
    ensures BusiestFirst(out.hosts, TrafficVolume(out.traffic), true)
    ensures BusiestFirst(out.probeHosts, ProbeVolume(out.probes), true)
    ensures BusiestFirst(out.thruHosts, ThruVolume(out.thru), true)
    ensures BusiestFirst(out.countries, CountryVolume(out.country), false)
    ensures out.smooth == if days > 60 then 7 else if days > 14 then 3 else 1
  {
    OrderIs(out.hosts, TrafficVolume(out.traffic), true);
    OrderIs(out.probeHosts, ProbeVolume(out.probes), true);
    OrderIs(out.thruHosts, ThruVolume(out.thru), true);
    OrderIs(out.countries, CountryVolume(out.country), false);
  }

  lemma OrderIs(names: seq<string>, volume: map<string, nat>, pinned: bool)
    requires Sorted(ByVolume(volume, pinned), names)
    ensures BusiestFirst(names, volume, pinned)
  {
    forall i, j | 0 <= i < j < |names| ensures Precedes(volume, pinned, names[i], names[j]) {
      assert ByVolume(volume, pinned)(names[i], names[j]);
    }
  }

  lemma SameOrder(w: map<string, nat>, pinned: bool, a: seq<string>, b: seq<string>, names: seq<string>)
    requires SameElements(a, names) && SameElements(b, names)
    requires Sorted(ByVolume(w, pinned), a) && Sorted(ByVolume(w, pinned), b)
    ensures a == b
  {
    ByVolumeOrders(w, pinned);
    SortedIsUnique(ByVolume(w, pinned), a, b);
  }

  /** A cut view is well-formed; one that was not long enough to cut is exactly when its length asks for
      the smoothing it has. */
  lemma SliceKeepsWellFormed(src: Snapshot, days: nat, out: Snapshot)
    requires WellFormed(src) && IsSlice(src, days, out)
    ensures WellFormed(out) <==> days < |src.days| || SmoothWindowFor(days) == SmoothWindowFor(|src.days| - 1)
    ensures |out.days| == if days + 1 < |src.days| then days + 1 else |src.days|
  {
    if days + 1 < |src.days| {
      CutIsWellFormed(src, days, out);
    } else {
      UncutIsWellFormed(src, days, out);
    }
  }

  lemma CutIsWellFormed(src: Snapshot, days: nat, out: Snapshot)
    requires WellFormed(src) && IsSlice(src, days, out) && days + 1 < |src.days|
    ensures WellFormed(out) && |out.days| == days + 1
  {
    TailsAreFull(src, |src.days| - days - 1, out);
  }

  lemma UncutIsWellFormed(src: Snapshot, days: nat, out: Snapshot)
    requires WellFormed(src) && IsSlice(src, days, out) && days + 1 >= |src.days|
    ensures out.days == src.days && (WellFormed(out) <==> SmoothWindowFor(days) == src.smooth)
  {
    if SmoothWindowFor(days) == src.smooth {
      assert out == src;
    }
  }

  lemma TailsAreFull(src: Snapshot, from: nat, out: Snapshot)
    requires AllFull(src) && from < |src.days| && Tails(src, from, |src.days|, out)
    ensures AllFull(out)
  {
    forall h | h in out.traffic ensures Full(out.traffic[h], |out.days|) {
      assert Full(src.traffic[h], |src.days|);
    }
  }

  lemma CutTwice<T>(v: seq<T>, from: nat, from': nat, n: nat)
    requires (|v| == n || |v| == 0) && from + from' < n
    ensures Cut(Cut(v, from, n), from', n - from) == Cut(v, from + from', n)
  {
  }

  lemma CutAllTwice<T>(m: Series<T>, from: nat, from': nat, n: nat)
    requires Full(m, n) && from + from' < n
    ensures CutAll(CutAll(m, from, n), from', n - from) == CutAll(m, from + from', n)
  {
    forall k | k in m ensures Cut(Cut(m[k], from, n), from', n - from) == Cut(m[k], from + from', n) {
      CutTwice(m[k], from, from', n);
    }
  }

  lemma CutTrafficTwice(t: map<string, Series<Counts>>, from: nat, from': nat, n: nat)
    requires (forall h :: h in t ==> Full(t[h], n)) && from + from' < n
    ensures CutTraffic(CutTraffic(t, from, n), from', n - from) == CutTraffic(t, from + from', n)
  {
    forall h | h in t ensures CutAll(CutAll(t[h], from, n), from', n - from) == CutAll(t[h], from + from', n) {
      CutAllTwice(t[h], from, from', n);
    }
  }

  lemma CutClientsTwice(country: Series<nat>, clients: Series<nat>, from: nat, from': nat, n: nat)
    requires country.Keys == clients.Keys && Full(clients, n) && from + from' < n
    ensures CutClients(CutAll(country, from, n), CutClients(country, clients, from, n), from', n - from)
         == CutClients(country, clients, from + from', n)
  {
    forall c | c in country ensures c in clients
      && Cut(Cut(clients[c], from, n), from', n - from) == Cut(clients[c], from + from', n) {
      CutTwice(clients[c], from, from', n);
    }
  }

  lemma MapTailsOfTails(src: Snapshot, from: nat, mid: Snapshot, from': nat, n: nat, out: Snapshot)
    requires AllFull(src) && n == |src.days| && from + from' < n
    requires MapTails(src, from, n, mid) && MapTails(mid, from', n - from, out)
    ensures MapTails(src, from + from', n, out)
  {
    CutTrafficTwice(src.traffic, from, from', n);
    CutAllTwice(src.probes, from, from', n);
    CutAllTwice(src.thru, from, from', n);
    CutAllTwice(src.country, from, from', n);
    CutClientsTwice(src.country, src.countryClients, from, from', n);
  }

  lemma SeqTailsOfTails(src: Snapshot, from: nat, mid: Snapshot, from': nat, n: nat, out: Snapshot)
    requires AllFull(src) && n == |src.days| && from + from' < n
    requires SeqTails(src, from, n, mid) && SeqTails(mid, from', n - from, out)
    ensures SeqTails(src, from + from', n, out)
  {
    CutTwice(src.clients, from, from', n);
    CutTwice(src.buildIds, from, from', n);
    CutTwice(src.requests, from, from', n);
    CutTwice(src.cacheBytes, from, from', n);
    CutTwice(src.cacheTmp, from, from', n);
    CutTwice(src.cacheEntries, from, from', n);
    CutTwice(src.fsFree, from, from', n);
  }

  lemma TailsOfTails(src: Snapshot, from: nat, mid: Snapshot, from': nat, out: Snapshot)
    requires AllFull(src) && from + from' < |src.days|
    requires Tails(src, from, |src.days|, mid) && Tails(mid, from', |mid.days|, out)
    ensures Tails(src, from + from', |src.days|, out)
  {
    MapTailsOfTails(src, from, mid, from', |src.days|, out);
    SeqTailsOfTails(src, from, mid, from', |src.days|, out);
    assert src.days[from..][from'..] == src.days[from + from'..];
  }

  lemma TailsAlike(src: Snapshot, smooth: nat, from: nat, out: Snapshot)
    requires from <= |src.days| && Tails(src.(smooth := smooth), from, |src.days|, out)
    ensures Tails(src, from, |src.days|, out)
  {
  }

  lemma NamesAlike(src: Snapshot, smooth: nat, out: Snapshot)
    requires SameNames(src.(smooth := smooth), out)
    ensures SameNames(src, out)
  {
  }

  lemma NamesOn(src: Snapshot, mid: Snapshot, out: Snapshot)
    requires SameNames(src, mid) && SameNames(mid, out)
    ensures SameNames(src, out)
  {
  }

  /** What a slice says of the series alone. */
  lemma SliceTails(src: Snapshot, days: nat, out: Snapshot)
    requires IsSlice(src, days, out)
    ensures days + 1 < |src.days| ==> Tails(src, |src.days| - days - 1, |src.days|, out) && |out.days| == days + 1
    ensures days + 1 >= |src.days| ==> out == src.(smooth := out.smooth)
  {
  }

  lemma TailsOfSlices(src: Snapshot, a: nat, b: nat, mid: Snapshot, out: Snapshot)
    requires AllFull(src) && b < a && a + 1 < |src.days| && |mid.days| == a + 1
    requires Tails(src, |src.days| - a - 1, |src.days|, mid) && Tails(mid, |mid.days| - b - 1, |mid.days|, out)
    ensures Tails(src, |src.days| - b - 1, |src.days|, out)
  {
    TailsOfTails(src, |src.days| - a - 1, mid, a - b, out);
  }

  lemma NamesOfSlices(src: Snapshot, a: nat, b: nat, mid: Snapshot, out: Snapshot)
    requires b <= a && IsSlice(src, a, mid) && IsSlice(mid, b, out)
    ensures SameNames(src, out)
  {
    assert SameNames(src, src);
    if a + 1 >= |src.days| {
      NamesAlike(src, mid.smooth, out);
    } else {
      NamesOn(src, mid, out);
    }
  }

  lemma ShorterOfShorter(src: Snapshot, a: nat, b: nat, mid: Snapshot, out: Snapshot)
    requires AllFull(src) && b < a && a + 1 < |src.days|
    requires IsSlice(src, a, mid) && IsSlice(mid, b, out)
    ensures Tails(src, |src.days| - b - 1, |src.days|, out) && b + 1 < |mid.days|
  {
    SliceTails(src, a, mid);
    SliceTails(mid, b, out);
    TailsOfSlices(src, a, b, mid, out);
  }

  lemma ShorterOfWhole(src: Snapshot, a: nat, b: nat, mid: Snapshot, out: Snapshot)
    requires b + 1 < |src.days| <= a + 1
    requires IsSlice(src, a, mid) && IsSlice(mid, b, out)
    ensures Tails(src, |src.days| - b - 1, |src.days|, out) && b + 1 < |mid.days|
  {
    SliceTails(src, a, mid);
    SliceTails(mid, b, out);
    TailsAlike(src, mid.smooth, |src.days| - b - 1, out);
  }

  lemma SliceTailsOfSlice(src: Snapshot, a: nat, b: nat, mid: Snapshot, out: Snapshot)
    requires AllFull(src) && b <= a && b + 1 < |src.days| && (b < a || a + 1 >= |src.days|)
    requires IsSlice(src, a, mid) && IsSlice(mid, b, out)
    ensures Tails(src, |src.days| - b - 1, |src.days|, out) && b + 1 < |mid.days|
  {
    if a + 1 < |src.days| {
      ShorterOfShorter(src, a, b, mid, out);
    } else {
      ShorterOfWhole(src, a, b, mid, out);
    }
  }

  lemma SliceOfSlice(src: Snapshot, a: nat, b: nat, mid: Snapshot, out: Snapshot)
    requires AllFull(src) && b <= a && IsSlice(src, a, mid) && IsSlice(mid, b, out)
    ensures IsSlice(src, b, out)
  {
    if b + 1 >= |src.days| || (b == a && a + 1 < |src.days|) {
      SameLength(src, a, b, mid, out);
    } else {
      SliceTailsOfSlice(src, a, b, mid, out);
      NamesOfSlices(src, a, b, mid, out);
      assert Derived(out) && out.smooth == SmoothWindowFor(b);
    }
  }

  lemma SameLength(src: Snapshot, a: nat, b: nat, mid: Snapshot, out: Snapshot)
    requires b <= a && (b + 1 >= |src.days| || b == a)
    requires IsSlice(src, a, mid) && IsSlice(mid, b, out)
    ensures IsSlice(src, b, out)
  {
    SliceTails(src, a, mid);
    SliceTails(mid, b, out);
    if a + 1 < |src.days| {
      assert out == mid.(smooth := SmoothWindowFor(a)) == mid;
    } else {
      assert b + 1 >= |src.days| ==> out == src.(smooth := SmoothWindowFor(b));
    }
  }

  /** Cutting to a and then to b <= a is cutting to b: the same days, series, totals, orders and scale. */
  lemma SlicesCompose(src: Snapshot, a: nat, b: nat, mid: Snapshot, out: Snapshot, direct: Snapshot)
    requires AllFull(src) && b <= a
    requires IsSlice(src, a, mid) && IsSlice(mid, b, out) && IsSlice(src, b, direct)
    ensures out == direct
  {
    SliceOfSlice(src, a, b, mid, out);
    SliceIsUnique(src, b, out, direct);
  }

  /** A view longer than what was collected keeps a scale that its wider smoothing no longer has. */
  lemma TooLongAViewIsOff()
    ensures exists src, days: nat, out ::
        WellFormed(src) && IsSlice(src, days, out) && days >= |src.days| && !IsScale(out.thru, out.smooth, out.thruMax)
  {
    var series := [ThruDay(0, 0.0, 0.0), ThruDay(1, 4.0, 4.0)];
    var src := Snapshot(["d0", "d1"], 1, map[], [], [0, 0], [0, 0], [0, 0], map[], [], 0, 0,
      map["h" := series], ["h"], 4.0, map[], map[], [], [], [], [], [], "");
    var out := src.(smooth := 3);
    OffScale(series, src, out);
    assert IsSlice(src, 15, out);
  }

  lemma OffScale(series: seq<ThruDay>, src: Snapshot, out: Snapshot)
    requires series == [ThruDay(0, 0.0, 0.0), ThruDay(1, 4.0, 4.0)]
    requires src.thru == map["h" := series] && src.smooth == 1 && src.thruMax == 4.0
    requires out == src.(smooth := 3)
    ensures IsScale(src.thru, 1, 4.0) && !IsScale(out.thru, 3, 4.0)
  {
    var pairs := ThruPairs(series);
    assert pairs == [(0.0, 0.0), (4.0, 4.0)];
    RawIsUnchanged(pairs, 0);
    RawIsUnchanged(pairs, 1);
    assert P90At(src.thru, 1, "h", 1) == 4.0;
    assert IsTop(src.thru, 1, 4.0);
    var all := pairs[0..2];
    assert all == pairs && all[..1] == [(0.0, 0.0)] && all[..1][..0] == [];
    assert SumPairs(all) == (4.0, 4.0);
    assert AverageAt(pairs, 3, 1) == (2.0, 2.0);
    assert pairs[0..1] == [(0.0, 0.0)] && SumPairs([(0.0, 0.0)]) == (0.0, 0.0);
    assert AverageAt(pairs, 3, 0) == (0.0, 0.0);
    assert P90At(out.thru, 3, "h", 1) == 2.0;
    assert IsTop(out.thru, 3, 2.0);
    assert IsScale(out.thru, 3, 2.0);
    if IsScale(out.thru, 3, 4.0) {
      ScaleIsUnique(out.thru, 3, 2.0, 4.0);
    }
  }
}
