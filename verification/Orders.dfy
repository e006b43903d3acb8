/** Sorting: what a sort promises, when its outcome is the only possible one, and an in-place sort. */
module Orders {

  ghost predicate TotalPreorder<T(!new)>(le: (T, T) -> bool) {
    && (forall x, y :: le(x, y) || le(y, x))
    && (forall x, y, z :: le(x, y) && le(y, z) ==> le(x, z))
  }

  ghost predicate Sorted<T>(le: (T, T) -> bool, s: seq<T>) {
    forall i, j :: 0 <= i < j < |s| ==> le(s[i], s[j])
  }

  /** No two different elements of s are tied. */
  ghost predicate NoTies<T>(le: (T, T) -> bool, s: seq<T>) {
    forall i, j :: 0 <= i < |s| && 0 <= j < |s| && le(s[i], s[j]) && le(s[j], s[i]) ==> s[i] == s[j]
  }

  ghost predicate SameElements<T>(a: seq<T>, b: seq<T>) {
    multiset(a) == multiset(b)
  }

  lemma ElementOf<T>(a: seq<T>, b: seq<T>, i: nat) returns (j: nat)
    requires SameElements(a, b) && i < |a|
    ensures j < |b| && b[j] == a[i]
  {
    assert a[i] in multiset(a);
    assert a[i] in multiset(b);
    j :| 0 <= j < |b| && b[j] == a[i];
  }

  lemma SameHead<T(!new)>(le: (T, T) -> bool, a: seq<T>, b: seq<T>)
    requires TotalPreorder(le) && NoTies(le, a) && |a| > 0 && |b| > 0
    requires SameElements(a, b) && Sorted(le, a) && Sorted(le, b)
    ensures a[0] == b[0]
  {
    var j := ElementOf(a, b, 0);
    var i := ElementOf(b, a, 0);
    assert le(a[0], a[i]) && le(b[0], b[j]);
  }

  lemma SameTail<T>(a: seq<T>, b: seq<T>)
    requires SameElements(a, b) && |a| > 0 && |b| > 0 && a[0] == b[0]
    ensures SameElements(a[1..], b[1..])
  {
    assert a == [a[0]] + a[1..] && b == [b[0]] + b[1..];
    assert multiset(a[1..]) == multiset(a) - multiset{a[0]};
    assert multiset(b[1..]) == multiset(b) - multiset{b[0]};
  }

  /** Without ties there is only one sorted arrangement, whatever the order the elements came in. */
  lemma {:induction false} SortedIsUnique<T(!new)>(le: (T, T) -> bool, a: seq<T>, b: seq<T>)
    requires TotalPreorder(le) && NoTies(le, a)
    requires SameElements(a, b) && Sorted(le, a) && Sorted(le, b)
    ensures a == b
  {
    assert |a| == |multiset(a)| == |multiset(b)| == |b|;
    if |a| == 0 {
    } else {
      SameHead(le, a, b);
      SameTail(a, b);
      assert NoTies(le, a[1..]) && Sorted(le, a[1..]) && Sorted(le, b[1..]);
      SortedIsUnique(le, a[1..], b[1..]);
      assert a == [a[0]] + a[1..] && b == [b[0]] + b[1..];
    }
  }

  /** Byte-wise order of strings. */
  predicate StringLe(a: string, b: string) {
    |a| == 0 || (|b| > 0 && (a[0] < b[0] || (a[0] == b[0] && StringLe(a[1..], b[1..]))))
  }

  lemma {:induction false} StringLeTotal(a: string, b: string)
    ensures StringLe(a, b) || StringLe(b, a)
    ensures StringLe(a, b) && StringLe(b, a) ==> a == b
  {
    if |a| > 0 && |b| > 0 && a[0] == b[0] {
      StringLeTotal(a[1..], b[1..]);
      assert a == [a[0]] + a[1..] && b == [b[0]] + b[1..];
    }
  }

  lemma {:induction false} StringLeTransitive(a: string, b: string, c: string)
    requires StringLe(a, b) && StringLe(b, c)
    ensures StringLe(a, c)
  {
    if |a| > 0 && a[0] == b[0] == c[0] {
      StringLeTransitive(a[1..], b[1..], c[1..]);
    }
  }

  /** Put a[n] where it belongs among the sorted a[..n]. */
  method Insert<T(!new)>(a: array<T>, n: nat, le: (T, T) -> bool)
    requires n < a.Length && TotalPreorder(le) && Sorted(le, a[..n])
    modifies a
    ensures Sorted(le, a[..n + 1])
    ensures multiset(a[..]) == multiset(old(a[..]))
    ensures a[n + 1..] == old(a[n + 1..])
  {
    var k := n;
    while k > 0 && !le(a[k - 1], a[k])
      invariant k <= n
      invariant multiset(a[..]) == multiset(old(a[..]))
      invariant a[n + 1..] == old(a[n + 1..])
      invariant forall i, j :: 0 <= i < j <= n && j != k ==> le(a[i], a[j])
    {
      a[k - 1], a[k] := a[k], a[k - 1];
      k := k - 1;
    }
  }

  method Sort<T(!new)>(a: array<T>, le: (T, T) -> bool)
    requires TotalPreorder(le)
    modifies a
    ensures Sorted(le, a[..])
    ensures SameElements(a[..], old(a[..]))
  {
    for n := 0 to a.Length
      invariant Sorted(le, a[..n])
      invariant multiset(a[..]) == multiset(old(a[..]))
    {
      Insert(a, n, le);
    }
    assert a[..a.Length] == a[..];
  }
}
