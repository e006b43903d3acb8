/** Which service owns an address: prefixes bucketed by mask length, against longest-prefix match over the flat list. */
module IpTags {
  import opened Options
  import opened Orders

  type Bits = seq<bool>

  /** A zone-free address. */
  datatype Address = Address(v4: bool, bits: Bits)
  {
    predicate Valid() { |bits| == if v4 then 32 else 128 }
  }
  type Addr = a: Address | a.Valid() witness Address(true, seq(32, _ => false))

  datatype Range = Range(addr: Addr, length: nat)
  {
    predicate Valid() { length <= |addr.bits| }
  }
  type Prefix = p: Range | p.Valid() witness Range(Address(true, seq(32, _ => false)), 0)

  /** A prefix may be as long as its address: one host alone. */
  lemma AnyLength(a: Addr, n: nat)
    ensures Range(a, n).Valid() <==> n <= if a.v4 then 32 else 128
  {
  }

  /** A line of the published list; None is text that does not parse as a prefix. */
  datatype Listed = Listed(prefix: Option<Prefix>, service: string)

  function Zeros(n: nat): Bits {
    seq(n, _ => false)
  }

  function Ones(n: nat): Bits {
    seq(n, _ => true)
  }

  /** ::ffff:a.b.c.d, the form an IPv4 address takes in IPv6 (section 2.5.5.2 of RFC 4291). */
  predicate Mapped(a: Addr) {
    !a.v4 && a.bits[..96] == Zeros(80) + Ones(16)
  }

  function Unmap(a: Addr): Addr {
    if Mapped(a) then Address(true, a.bits[96..]) else a
  }

  /** 80 zeros and 16 ones before an IPv4 address: that address is meant. Any other address means itself. */
  lemma UnmapIs(a: Addr)
    ensures var mapped := !a.v4 && (forall i :: 0 <= i < 80 ==> !a.bits[i]) && forall i :: 80 <= i < 96 ==> a.bits[i];
      Unmap(a) == if mapped then Address(true, a.bits[96..]) else a
  {
    if !a.v4 {
      var head := a.bits[..96];
      assert head == Zeros(80) + Ones(16) ==>
          (forall i :: 0 <= i < 80 ==> !head[i]) && forall i :: 80 <= i < 96 ==> head[i];
      if (forall i :: 0 <= i < 80 ==> !a.bits[i]) && forall i :: 80 <= i < 96 ==> a.bits[i] {
        assert head == Zeros(80) + Ones(16);
      }
    }
  }

  // ------------------------------------------------------------------ what the answer should be

  predicate Contains(p: Prefix, a: Addr) {
    p.addr.v4 == a.v4 && p.addr.bits[..p.length] == a.bits[..p.length]
  }

  /** Of one family, and alike in the first bits. */
  lemma ContainsIs(p: Prefix, a: Addr)
    ensures Contains(p, a) <==> p.addr.v4 == a.v4 && forall i :: 0 <= i < p.length ==> p.addr.bits[i] == a.bits[i]
  {
    if p.addr.v4 == a.v4 {
      var mine, its := p.addr.bits[..p.length], a.bits[..p.length];
      assert mine == its ==> forall i :: 0 <= i < p.length ==> mine[i] == its[i];
    }
  }

  predicate Matches(l: Listed, a: Addr) {
    l.prefix.Some? && Contains(l.prefix.value, a)
  }

  /** Longest-prefix match (section 5.1 of RFC 4632) over the flat list; among identical prefixes the
      last one listed. */
  ghost predicate Owner(list: seq<Listed>, a: Addr, i: nat) {
    && i < |list| && Matches(list[i], a)
    && forall j :: 0 <= j < |list| && Matches(list[j], a) ==>
         list[j].prefix.value.length < list[i].prefix.value.length
         || (list[j].prefix.value.length == list[i].prefix.value.length && j <= i)
  }

  ghost predicate IsAnswer(list: seq<Listed>, a: Addr, tag: string) {
    if exists j :: 0 <= j < |list| && Matches(list[j], a)
    then exists i: nat :: Owner(list, a, i) && tag == list[i].service
    else tag == ""
  }

  /** The answer is a matter of the list alone. */
  lemma AnswerIsUnique(list: seq<Listed>, a: Addr, s: string, t: string)
    requires IsAnswer(list, a, s) && IsAnswer(list, a, t)
    ensures s == t
  {
    if j :| 0 <= j < |list| && Matches(list[j], a) {
      var i: nat :| Owner(list, a, i) && s == list[i].service;
      var k: nat :| Owner(list, a, k) && t == list[k].service;
      assert Matches(list[i], a) && Matches(list[k], a);
    }
  }

  // ------------------------------------------------------------------ the buckets

  function Mask(bits: Bits, n: nat): Bits
    requires n <= |bits|
  {
    bits[..n] + Zeros(|bits| - n)
  }

  lemma MaskIsPrefix(a: Bits, b: Bits, n: nat)
    requires n <= |a| == |b|
    ensures Mask(a, n) == Mask(b, n) <==> a[..n] == b[..n]
  {
    assert Mask(a, n)[..n] == a[..n] && Mask(b, n)[..n] == b[..n];
  }

  type Networks = map<Bits, string>
  type ByLength = map<nat, Networks>

  datatype LenBucket = LenBucket(bits: nat, addrs: Networks)

  /** The key under which a listed prefix is stored. */
  predicate Stored(l: Listed, v4: bool, length: nat, network: Bits) {
    && l.prefix.Some? && l.prefix.value.addr.v4 == v4 && l.prefix.value.length == length
    && Mask(l.prefix.value.addr.bits, length) == network
  }

  /** The service the list gives last for one network. */
  function LastService(list: seq<Listed>, v4: bool, length: nat, network: Bits): Option<string> {
    if list == [] then None
    else
      var l := list[|list| - 1];
      if Stored(l, v4, length, network) then Some(l.service) else LastService(list[..|list| - 1], v4, length, network)
  }

  ghost predicate LastStored(list: seq<Listed>, v4: bool, length: nat, network: Bits, i: nat) {
    && i < |list| && Stored(list[i], v4, length, network)
    && forall j :: i < j < |list| ==> !Stored(list[j], v4, length, network)
  }

  lemma {:induction false} LastServiceIs(list: seq<Listed>, v4: bool, length: nat, network: Bits)
    ensures match LastService(list, v4, length, network)
            case None => forall j :: 0 <= j < |list| ==> !Stored(list[j], v4, length, network)
            case Some(tag) => exists i: nat :: LastStored(list, v4, length, network, i) && list[i].service == tag
  {
    if list == [] {
    } else {
      var init := list[..|list| - 1];
      LastServiceIs(init, v4, length, network);
      assert forall j :: 0 <= j < |init| ==> list[j] == init[j];
      if Stored(list[|list| - 1], v4, length, network) {
        assert LastStored(list, v4, length, network, |list| - 1);
      } else if i: nat :|
                  LastStored(init, v4, length, network, i)
                  && Some(init[i].service) == LastService(init, v4, length, network) {
        assert LastStored(list, v4, length, network, i);
      }
    }
  }

  function Get(m: ByLength, length: nat, network: Bits): Option<string> {
    if length in m && network in m[length] then Some(m[length][network]) else None
  }

  function Set(m: ByLength, length: nat, network: Bits, service: string): (r: ByLength)
    ensures Get(r, length, network) == Some(service)
    ensures forall n: nat, w :: (n, w) != (length, network) ==> Get(r, n, w) == Get(m, n, w)
  {
    m[length := (if length in m then m[length] else map[])[network := service]]
  }

  /** The nested maps hold exactly what the list says. */
  ghost predicate Agree(m: ByLength, list: seq<Listed>, v4: bool) {
    forall n, w :: Get(m, n, w) == LastService(list, v4, n, w)
  }

  lemma AgreeOneMore(m: ByLength, r: ByLength, list: seq<Listed>, l: Listed, v4: bool)
    requires Agree(m, list, v4)
    requires if l.prefix.Some? && l.prefix.value.addr.v4 == v4
             then r == Set(m, l.prefix.value.length, Mask(l.prefix.value.addr.bits, l.prefix.value.length), l.service)
             else r == m
    ensures Agree(r, list + [l], v4)
  {
    var more := list + [l];
    assert more[..|more| - 1] == list && more[|more| - 1] == l;
  }

  function LongestFirst(): (LenBucket, LenBucket) -> bool {
    (x: LenBucket, y: LenBucket) => x.bits >= y.bits
  }

  ghost predicate Bucketed(buckets: seq<LenBucket>, m: ByLength) {
    && (forall b :: b in buckets ==> b.bits in m && b.addrs == m[b.bits])
    && (forall n :: n in m ==> LenBucket(n, m[n]) in buckets)
  }

  method ToBuckets(m: ByLength) returns (buckets: seq<LenBucket>)
    ensures Bucketed(buckets, m) && Sorted(LongestFirst(), buckets)
  {
    var found: seq<LenBucket> := [];
    var todo := m.Keys;
    while todo != {}
      invariant todo <= m.Keys
      invariant forall b :: b in found ==> b.bits in m && b.addrs == m[b.bits]
      invariant forall n :: n in m && n !in todo ==> LenBucket(n, m[n]) in found
      decreases |todo|
    {
      var n :| n in todo;
      found := found + [LenBucket(n, m[n])];
      todo := todo - {n};
    }
    var sorted := new LenBucket[|found|](i requires 0 <= i < |found| => found[i]);
    assert sorted[..] == found;
    Sort(sorted, LongestFirst());
    buckets := sorted[..];
    forall b ensures b in buckets <==> b in found {
      assert b in multiset(buckets) <==> b in multiset(found);
    }
  }

  class IpTagSet {
    const v4: seq<LenBucket>
    const v6: seq<LenBucket>

    ghost predicate Holds(list: seq<Listed>) {
      HoldsFamily(v4, list, true) && HoldsFamily(v6, list, false)
    }

    constructor (list: seq<Listed>)
      ensures Holds(list)
    {
      var m4: ByLength, m6: ByLength := map[], map[];
      for i := 0 to |list|
        invariant Agree(m4, list[..i], true) && Agree(m6, list[..i], false)
      {
        ghost var was4, was6 := m4, m6;
        if list[i].prefix.Some? {
          var p := list[i].prefix.value;
          var network := Mask(p.addr.bits, p.length);
          if p.addr.v4 {
            m4 := Set(m4, p.length, network, list[i].service);
          } else {
            m6 := Set(m6, p.length, network, list[i].service);
          }
        }
        AgreeOneMore(was4, m4, list[..i], list[i], true);
        AgreeOneMore(was6, m6, list[..i], list[i], false);
        assert list[..i] + [list[i]] == list[..i + 1];
      }
      assert list[..|list|] == list;
      var b4 := ToBuckets(m4);
      var b6 := ToBuckets(m6);
      v4, v6 := b4, b6;
    }
  }

  ghost predicate HoldsFamily(buckets: seq<LenBucket>, list: seq<Listed>, v4: bool) {
    Sorted(LongestFirst(), buckets) && exists m :: Bucketed(buckets, m) && Agree(m, list, v4)
  }

  /** A bucket of mask length n answers for the networks of length n, and every listed length has one. */
  lemma BucketsTell(buckets: seq<LenBucket>, list: seq<Listed>, v4: bool)
    requires HoldsFamily(buckets, list, v4)
    ensures forall b, w :: b in buckets ==>
        (if w in b.addrs then Some(b.addrs[w]) else None) == LastService(list, v4, b.bits, w)
    ensures forall j :: 0 <= j < |list| && list[j].prefix.Some? && list[j].prefix.value.addr.v4 == v4 ==>
              exists k :: 0 <= k < |buckets| && buckets[k].bits == list[j].prefix.value.length
  {
    var m :| Bucketed(buckets, m) && Agree(m, list, v4);
    forall b, w | b in buckets
      ensures (if w in b.addrs then Some(b.addrs[w]) else None) == LastService(list, v4, b.bits, w)
    {
      assert Get(m, b.bits, w) == LastService(list, v4, b.bits, w);
    }
    forall j | 0 <= j < |list| && list[j].prefix.Some? && list[j].prefix.value.addr.v4 == v4
      ensures exists k :: 0 <= k < |buckets| && buckets[k].bits == list[j].prefix.value.length
    {
      var p := list[j].prefix.value;
      var w := Mask(p.addr.bits, p.length);
      assert Stored(list[j], v4, p.length, w);
      LastServiceIs(list, v4, p.length, w);
      assert Get(m, p.length, w).Some?;
      assert LenBucket(p.length, m[p.length]) in buckets;
    }
  }

  lemma StoredMeansMatches(l: Listed, a: Addr)
    ensures Matches(l, a) <==> l.prefix.Some? && l.prefix.value.length <= |a.bits|
                               && Stored(l, a.v4, l.prefix.value.length, Mask(a.bits, l.prefix.value.length))
  {
    if l.prefix.Some? && l.prefix.value.addr.v4 == a.v4 {
      MaskIsPrefix(l.prefix.value.addr.bits, a.bits, l.prefix.value.length);
    }
  }

  /** A bucket without the address's network has no listed prefix of its length around the address. */
  lemma MissMeansNone(buckets: seq<LenBucket>, list: seq<Listed>, a: Addr, k: nat)
    requires HoldsFamily(buckets, list, a.v4) && k < |buckets|
    requires buckets[k].bits > |a.bits| || Mask(a.bits, buckets[k].bits) !in buckets[k].addrs
    ensures forall j :: 0 <= j < |list| && Matches(list[j], a) ==> list[j].prefix.value.length != buckets[k].bits
  {
    BucketsTell(buckets, list, a.v4);
    var n := buckets[k].bits;
    assert buckets[k] in buckets;
    forall j | 0 <= j < |list| && Matches(list[j], a)
      ensures list[j].prefix.value.length != n
    {
      StoredMeansMatches(list[j], a);
      if n <= |a.bits| {
        LastServiceIs(list, a.v4, n, Mask(a.bits, n));
      }
    }
  }

  /** The first bucket that has the address's network holds the answer. */
  lemma HitIsOwner(buckets: seq<LenBucket>, list: seq<Listed>, a: Addr, k: nat)
    requires HoldsFamily(buckets, list, a.v4) && k < |buckets| && buckets[k].bits <= |a.bits|
    requires Mask(a.bits, buckets[k].bits) in buckets[k].addrs
    requires forall i :: 0 <= i < k ==>
               forall j :: 0 <= j < |list| && Matches(list[j], a) ==> list[j].prefix.value.length != buckets[i].bits
    ensures exists i: nat :: Owner(list, a, i) && buckets[k].addrs[Mask(a.bits, buckets[k].bits)] == list[i].service
  {
    BucketsTell(buckets, list, a.v4);
    var n, w := buckets[k].bits, Mask(a.bits, buckets[k].bits);
    assert buckets[k] in buckets;
    assert LastService(list, a.v4, n, w) == Some(buckets[k].addrs[w]);
    LastServiceIs(list, a.v4, n, w);
    var i: nat :| LastStored(list, a.v4, n, w, i) && list[i].service == buckets[k].addrs[w];
    StoredMeansMatches(list[i], a);
    forall j | 0 <= j < |list| && Matches(list[j], a)
      ensures list[j].prefix.value.length < n || (list[j].prefix.value.length == n && j <= i)
    {
      StoredMeansMatches(list[j], a);
      var c :| 0 <= c < |buckets| && buckets[c].bits == list[j].prefix.value.length;
      assert c >= k;
      assert c > k ==> LongestFirst()(buckets[k], buckets[c]);
    }
    assert Owner(list, a, i);
  }

  /** The service owning the address: "" for none, for an invalid address and for a set that was never loaded. */
  method Lookup(tags: IpTagSet?, ip: Option<Addr>, ghost list: seq<Listed>) returns (tag: string)
    requires tags != null ==> tags.Holds(list)
    ensures tags == null || ip.None? ==> tag == ""
    ensures tags != null && ip.Some? ==> IsAnswer(list, Unmap(ip.value), tag)
  {
    if tags == null || ip.None? { return ""; }
    var a := Unmap(ip.value);
    var buckets := if a.v4 then tags.v4 else tags.v6;
    for k := 0 to |buckets|
      invariant forall i :: 0 <= i < k ==>
                  forall j :: 0 <= j < |list| && Matches(list[j], a) ==> list[j].prefix.value.length != buckets[i].bits
    {
      var b := buckets[k];
      if b.bits <= |a.bits| {
        var network := Mask(a.bits, b.bits);
        if network in b.addrs {
          HitIsOwner(buckets, list, a, k);
          return b.addrs[network];
        }
      }
      MissMeansNone(buckets, list, a, k);
    }
    BucketsTell(buckets, list, a.v4);
    return "";
  }
}
