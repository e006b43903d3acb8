/** Eviction of unpacked source trees: least recently used first, until the volume fits the budget. */
module TreeEviction {
  import opened Greedy
  import opened Orders

  datatype Tree = Tree(key: string, bytes: nat, modified: int)

  ghost predicate DistinctKeys(trees: seq<Tree>) {
    forall i, j :: 0 <= i < j < |trees| ==> trees[i].key != trees[j].key
  }

  function Total(trees: seq<Tree>): nat {
    if trees == [] then 0 else trees[0].bytes + Total(trees[1..])
  }

  function Without(trees: seq<Tree>, key: string): (r: seq<Tree>)
    ensures forall t :: t in r <==> t in trees && t.key != key
  {
    if trees == [] then []
    else if trees[0].key == key then Without(trees[1..], key)
    else [trees[0]] + Without(trees[1..], key)
  }

  function Sizes(trees: seq<Tree>): seq<nat> {
    seq(|trees|, i requires 0 <= i < |trees| => trees[i].bytes)
  }

  function KeysOf(trees: seq<Tree>): set<string> {
    set t | t in trees :: t.key
  }

  lemma {:induction false} WithoutKeepsDistinct(trees: seq<Tree>, key: string)
    requires DistinctKeys(trees)
    ensures DistinctKeys(Without(trees, key))
  {
    if |trees| == 0 {
    } else {
      WithoutKeepsDistinct(trees[1..], key);
      var rest := Without(trees[1..], key);
      forall j | 0 <= j < |rest| ensures rest[j].key != trees[0].key {
        assert rest[j] in trees[1..];
      }
    }
  }

  lemma {:induction false} TotalWithout(trees: seq<Tree>, key: string)
    requires DistinctKeys(trees)
    ensures key !in KeysOf(trees) ==> Without(trees, key) == trees
    ensures forall t :: t in trees && t.key == key ==> Total(Without(trees, key)) == Total(trees) - t.bytes
  {
    if |trees| == 0 {
    } else {
      TotalWithout(trees[1..], key);
      assert forall t :: t in trees[1..] ==> t.key != trees[0].key;
      assert forall t :: t in trees <==> t == trees[0] || t in trees[1..];
      assert trees == [trees[0]] + trees[1..];
      if trees[0].key == key {
        assert key !in KeysOf(trees[1..]);
      } else if key !in KeysOf(trees) {
        assert forall t :: t in trees[1..] ==> t in trees;
        assert key !in KeysOf(trees[1..]);
      }
    }
  }

  // ------------------------------------------------------------------ the order

  /** When the tree was last served, or unpacked if this process has never served it. */
  function Rank(used: map<string, int>, t: Tree): int {
    if t.key in used then used[t.key] else t.modified
  }

  predicate Older(used: map<string, int>, x: Tree, y: Tree) {
    Rank(used, x) < Rank(used, y) || (Rank(used, x) == Rank(used, y) && StringLe(x.key, y.key))
  }

  function OldestFirst(used: map<string, int>): (Tree, Tree) -> bool {
    (x, y) => Older(used, x, y)
  }

  lemma OldestFirstOrders(used: map<string, int>)
    ensures TotalPreorder(OldestFirst(used))
  {
    var le := OldestFirst(used);
    forall x, y ensures le(x, y) || le(y, x) {
      StringLeTotal(x.key, y.key);
    }
    forall x, y, z | le(x, y) && le(y, z) ensures le(x, z) {
      if Rank(used, x) == Rank(used, y) == Rank(used, z) {
        StringLeTransitive(x.key, y.key, z.key);
      }
    }
  }

  /** With the tie broken on the key, the order depends on what is on the volume and not on how it was listed. */
  lemma OrderIgnoresListing(used: map<string, int>, a: seq<Tree>, b: seq<Tree>, ordered: seq<Tree>)
    requires DistinctKeys(a) && SameElements(a, b)
    requires SameElements(a, ordered) && Sorted(OldestFirst(used), ordered)
    ensures forall other :: SameElements(b, other) && Sorted(OldestFirst(used), other) ==> other == ordered
  {
    OldestFirstOrders(used);
    KeysStayDistinct(a, ordered);
    forall i, j | 0 <= i < |ordered| && 0 <= j < |ordered|
      && OldestFirst(used)(ordered[i], ordered[j]) && OldestFirst(used)(ordered[j], ordered[i])
      ensures ordered[i] == ordered[j]
    {
      StringLeTotal(ordered[i].key, ordered[j].key);
    }
    forall other | SameElements(b, other) && Sorted(OldestFirst(used), other) ensures other == ordered {
      SortedIsUnique(OldestFirst(used), ordered, other);
    }
  }

  lemma KeysStayDistinct(a: seq<Tree>, b: seq<Tree>)
    requires DistinctKeys(a) && SameElements(a, b)
    ensures DistinctKeys(b)
  {
    forall i, j | 0 <= i < j < |b| ensures b[i].key != b[j].key {
      if b[i].key == b[j].key {
        OneOfEach(a, b[i]);
        var k := ElementOf(b, a, i);
        var l := ElementOf(b, a, j);
        TwiceMeansTwo(b, i, j);
        assert false;
      }
    }
  }

  lemma {:induction false} OneOfEach(a: seq<Tree>, t: Tree)
    requires DistinctKeys(a)
    ensures multiset(a)[t] <= 1
  {
    if |a| == 0 {
    } else {
      assert a == [a[0]] + a[1..];
      OneOfEach(a[1..], t);
      assert a[0] !in a[1..];
    }
  }

  lemma TwiceMeansTwo(b: seq<Tree>, i: nat, j: nat)
    requires i < j < |b| && b[i] == b[j]
    ensures multiset(b)[b[i]] >= 2
  {
    assert b == b[..j] + b[j..];
    assert b[i] == b[..j][i] && b[j] == b[j..][0];
    assert b[i] in multiset(b[..j]) && b[i] in multiset(b[j..]);
  }

  // ------------------------------------------------------------------ the volume and the server

  /** The unpacker, which owns the volume. Whether it can be reached for a listing, and which trees it deletes and
      says so, is up to it; otherwise the tree may stay, or go while the answer gets lost. */
  class Unpacker {
    var trees: seq<Tree>
    const lists: bool
    const obeys: set<string>

    ghost predicate Valid()
      reads this
    {
      DistinctKeys(trees)
    }

    method List() returns (ok: bool, listing: seq<Tree>)
      requires Valid()
      ensures ok == lists && (ok ==> listing == trees)
    {
      ok := lists;
      listing := trees;
    }

    method Delete(key: string) returns (ok: bool)
      requires Valid()
      modifies this
      ensures Valid()
      ensures trees == old(trees) || trees == Without(old(trees), key)
      ensures ok ==> trees == Without(old(trees), key)
      ensures key in obeys ==> ok
    {
      WithoutKeepsDistinct(trees, key);
      var removed: bool := *;
      removed := removed || key in obeys;
      if removed {
        trees := Without(trees, key);
      }
      ok := *;
      ok := (ok && removed) || key in obeys;
    }
  }

  /** What a pass leaves of `before`: everything it did not attempt stays, everything it removed is gone. */
  ghost predicate Remains(before: seq<Tree>, after: seq<Tree>, order: seq<Tree>, gone: seq<bool>)
    requires |gone| <= |order|
  {
    && (forall t :: t in after ==> t in before)
    && (forall t :: t in before && t.key !in KeysOf(order[..|gone|]) ==> t in after)
    && (forall i :: 0 <= i < |gone| && gone[i] ==> order[i] !in after)
  }

  lemma AttemptOne(before: seq<Tree>, mid: seq<Tree>, after: seq<Tree>, order: seq<Tree>, gone: seq<bool>, ok: bool)
    requires |gone| < |order| && DistinctKeys(order) && DistinctKeys(mid)
    requires Remains(before, mid, order, gone)
    requires after == mid || after == Without(mid, order[|gone|].key)
    requires ok ==> after == Without(mid, order[|gone|].key)
    ensures Remains(before, after, order, gone + [ok])
    ensures KeysOf(order[..|gone| + 1]) == KeysOf(order[..|gone|]) + {order[|gone|].key}
    ensures forall j :: |gone| < j < |order| && order[j] in mid ==> order[j] in after
  {
    var k := |gone|;
    assert order[..k + 1] == order[..k] + [order[k]];
    assert KeysOf(order[..k + 1]) == KeysOf(order[..k]) + {order[k].key};
    assert (gone + [ok])[k] == ok;
  }

  /** A pass that attempted everything, and every attempt went well, leaves nothing. */
  lemma AllGoneIsEmpty(before: seq<Tree>, after: seq<Tree>, order: seq<Tree>, gone: seq<bool>)
    requires |gone| <= |order| && SameElements(order, before) && Remains(before, after, order, gone)
    requires forall i :: 0 <= i < |gone| ==> gone[i]
    ensures |gone| == |order| ==> Total(after) == 0
  {
    if |gone| == |order| {
      forall t | t in before ensures t !in after {
        assert t in multiset(before) && t in multiset(order);
        var i :| 0 <= i < |order| && order[i] == t;
        assert gone[i];
      }
      assert after != [] ==> after[0] in before;
    }
  }

  /** When a tree was last used: when it was last served, or else when it was unpacked. */
  predicate UsedAt(used: map<string, int>, t: Tree, when: int) {
    when == if t.key in used then used[t.key] else t.modified
  }

  /** Least recently used first: no tree that a pass left alone was used before one that it tried to delete. */
  lemma OldestGoFirst(used: map<string, int>, before: seq<Tree>, after: seq<Tree>, order: seq<Tree>, gone: seq<bool>,
          i: nat, t: Tree, its: int, mine: int)
    requires SameElements(order, before) && Sorted(OldestFirst(used), order)
    requires |gone| <= |order| && Remains(before, after, order, gone)
    requires i < |gone| && t in after && forall k :: 0 <= k < |gone| ==> order[k] != t
    requires UsedAt(used, order[i], its) && UsedAt(used, t, mine)
    ensures its <= mine
  {
    assert t in multiset(before) && t in multiset(order);
    var j :| 0 <= j < |order| && order[j] == t;
    assert j >= |gone|;
    assert OldestFirst(used)(order[i], order[j]);
  }

  /** Attempts at trees that the unpacker deletes when asked went well. */
  ghost predicate AsAsked(obeys: set<string>, order: seq<Tree>, gone: seq<bool>) {
    |gone| <= |order| && forall i :: 0 <= i < |gone| && order[i].key in obeys ==> gone[i]
  }

  lemma FreedOneMore(order: seq<Tree>, gone: seq<bool>, ok: bool)
    requires |gone| < |order|
    ensures Freed(Sizes(order), gone + [ok]) == Freed(Sizes(order), gone) + if ok then order[|gone|].bytes else 0
  {
    assert (gone + [ok])[..|gone|] == gone;
  }

  lemma ObeyedOneMore(obeys: set<string>, order: seq<Tree>, gone: seq<bool>, ok: bool)
    requires AsAsked(obeys, order, gone) && |gone| < |order| && (order[|gone|].key in obeys ==> ok)
    ensures AsAsked(obeys, order, gone + [ok])
  {
  }

  /** What a pass changes: the trees on the volume and what the server remembers of them. */
  datatype Scene = Scene(trees: seq<Tree>, indexes: map<string, nat>, lastUsed: map<string, int>)

  /** How things stand after the attempts `gone`. */
  ghost predicate Progress(was: Scene, now: Scene, order: seq<Tree>, gone: seq<bool>, total: nat, budget: int) {
    && |gone| <= |order|
    && AllNeeded(total, budget, Sizes(order), gone)
    && Total(now.trees) + Freed(Sizes(order), gone) <= total
    && (gone == [] ==> now.trees == was.trees)
    && (forall j :: |gone| <= j < |order| ==> order[j] in now.trees)
    && Remains(was.trees, now.trees, order, gone)
    && now.indexes == was.indexes - KeysOf(order[..|gone|])
    && now.lastUsed == was.lastUsed - KeysOf(order[..|gone|])
  }

  lemma ProgressStep(was: Scene, mid: Scene, now: Scene, order: seq<Tree>, gone: seq<bool>, total: nat, budget: int,
          ok: bool)
    requires DistinctKeys(order) && DistinctKeys(mid.trees)
    requires Progress(was, mid, order, gone, total, budget)
    requires |gone| < |order| && !Met(total, budget, Sizes(order), gone)
    requires now.trees == mid.trees || now.trees == Without(mid.trees, order[|gone|].key)
    requires ok ==> now.trees == Without(mid.trees, order[|gone|].key)
    requires Total(now.trees) <= Total(mid.trees) - if ok then order[|gone|].bytes else 0
    requires now.indexes == mid.indexes - {order[|gone|].key} && now.lastUsed == mid.lastUsed - {order[|gone|].key}
    ensures Progress(was, now, order, gone + [ok], total, budget)
  {
    AttemptOne(was.trees, mid.trees, now.trees, order, gone, ok);
    OneMore(total, budget, Sizes(order), gone, ok);
  }

  class Srv {
    const unpacker: Unpacker
    var indexes: map<string, nat>
    var lastUsed: map<string, int>

    ghost predicate Valid()
      reads this, unpacker
    {
      unpacker.Valid()
    }

    ghost function Here(): Scene
      reads this, unpacker
    {
      Scene(unpacker.trees, indexes, lastUsed)
    }

    constructor (unpacker: Unpacker)
      requires unpacker.Valid()
      ensures Valid() && this.unpacker == unpacker && indexes == map[] && lastUsed == map[]
    {
      this.unpacker := unpacker;
      indexes := map[];
      lastUsed := map[];
    }

    method Touch(key: string, now: int)
      modifies this`lastUsed
      ensures lastUsed == old(lastUsed)[key := now]
    {
      lastUsed := lastUsed[key := now];
    }

    /** A tree may be asked away only when no index offers its files any more. */
    method DeleteTree(key: string) returns (ok: bool)
      requires Valid() && key !in indexes && key !in lastUsed
      modifies unpacker
      ensures Valid()
      ensures unpacker.trees == old(unpacker.trees) || unpacker.trees == Without(old(unpacker.trees), key)
      ensures ok ==> unpacker.trees == Without(old(unpacker.trees), key)
      ensures key in unpacker.obeys ==> ok
    {
      ok := unpacker.Delete(key);
    }

    /** The unpacker deletes any of these trees that it is asked to. */
    ghost predicate Obeyed(trees: seq<Tree>) {
      forall t :: t in trees ==> t.key in unpacker.obeys
    }

    /** One pass. `order` is what it would go through, `gone` how its attempts ended. */
    method EvictOnce(budget: int) returns (ok: bool, ghost order: seq<Tree>, ghost gone: seq<bool>)
      requires Valid()
      modifies this, unpacker
      ensures Valid()
      ensures ok == unpacker.lists && (!ok ==> gone == [])
      ensures ok && Total(old(unpacker.trees)) <= budget ==> gone == []
      ensures ok && Total(old(unpacker.trees)) > budget ==>
                && SameElements(order, old(unpacker.trees))
                && Sorted(OldestFirst(old(lastUsed)), order)
                && IsPass(Total(old(unpacker.trees)), budget, Sizes(order), gone)
                && (Met(Total(old(unpacker.trees)), budget, Sizes(order), gone) ==> Total(unpacker.trees) <= budget)
      ensures |gone| <= |order|
      ensures gone == [] ==> unpacker.trees == old(unpacker.trees)
      ensures Remains(old(unpacker.trees), unpacker.trees, order, gone)
      ensures indexes == old(indexes) - KeysOf(order[..|gone|])
      ensures lastUsed == old(lastUsed) - KeysOf(order[..|gone|])
      ensures AsAsked(unpacker.obeys, order, gone)
      ensures ok && budget >= 0 && Obeyed(old(unpacker.trees)) ==> Total(unpacker.trees) <= budget
    {
      order, gone := [], [];
      assert indexes == indexes - KeysOf([]) && lastUsed == lastUsed - KeysOf([]);
      var trees;
      ok, trees := unpacker.List();
      if !ok { return; }
      var total := 0;
      for i := 0 to |trees|
        invariant total == Total(trees) - Total(trees[i..])
      {
        assert trees[i..][1..] == trees[i + 1..];
        total := total + trees[i].bytes;
      }
      if total <= budget { return; }

      var used := lastUsed;
      var sorted := new Tree[|trees|](i requires 0 <= i < |trees| => trees[i]);
      assert sorted[..] == trees;
      OldestFirstOrders(used);
      Sort(sorted, OldestFirst(used));
      var victims := sorted[..];
      order := victims;
      KeysStayDistinct(trees, order);
      ghost var was := unpacker.trees;
      gone := EvictInOrder(victims, total, budget);
      if budget >= 0 && Obeyed(was) {
        forall i | 0 <= i < |gone| ensures gone[i] {
          var j := ElementOf(order, was, i);
        }
        AllGoneIsEmpty(was, unpacker.trees, order, gone);
      }
    }

    /** Drop the index, then the tree. */
    method Forget(t: Tree) returns (ok: bool)
      requires Valid() && t in unpacker.trees
      modifies this, unpacker
      ensures Valid()
      ensures unpacker.trees == old(unpacker.trees) || unpacker.trees == Without(old(unpacker.trees), t.key)
      ensures ok ==> unpacker.trees == Without(old(unpacker.trees), t.key)
      ensures Total(unpacker.trees) <= Total(old(unpacker.trees)) - if ok then t.bytes else 0
      ensures indexes == old(indexes) - {t.key} && lastUsed == old(lastUsed) - {t.key}
      ensures t.key in unpacker.obeys ==> ok
    {
      indexes := indexes - {t.key};
      lastUsed := lastUsed - {t.key};
      TotalWithout(unpacker.trees, t.key);
      ok := DeleteTree(t.key);
    }

    /** The next attempt of a pass. */
    method ForgetNext(order: seq<Tree>, i: nat, ghost was: Scene, ghost gone: seq<bool>, ghost total: nat,
            ghost budget: int)
      returns (ok: bool)
      requires Valid() && DistinctKeys(order) && i == |gone| < |order|
      requires Progress(was, Here(), order, gone, total, budget) && !Met(total, budget, Sizes(order), gone)
      requires AsAsked(unpacker.obeys, order, gone)
      modifies this, unpacker
      ensures Valid()
      ensures Progress(was, Here(), order, gone + [ok], total, budget)
      ensures AsAsked(unpacker.obeys, order, gone + [ok])
    {
      ghost var mid := Here();
      ok := Forget(order[i]);
      ProgressStep(was, mid, Here(), order, gone, total, budget, ok);
      ObeyedOneMore(unpacker.obeys, order, gone, ok);
    }

    /** The greedy loop over the sorted trees. */
    method EvictInOrder(order: seq<Tree>, total: nat, budget: int) returns (ghost gone: seq<bool>)
      requires Valid() && DistinctKeys(order)
      requires SameElements(order, unpacker.trees) && total == Total(unpacker.trees) > budget
      modifies this, unpacker
      ensures Valid()
      ensures IsPass(total, budget, Sizes(order), gone)
      ensures Met(total, budget, Sizes(order), gone) ==> Total(unpacker.trees) <= budget
      ensures gone == [] ==> unpacker.trees == old(unpacker.trees)
      ensures Remains(old(unpacker.trees), unpacker.trees, order, gone)
      ensures indexes == old(indexes) - KeysOf(order[..|gone|])
      ensures lastUsed == old(lastUsed) - KeysOf(order[..|gone|])
      ensures AsAsked(unpacker.obeys, order, gone)
    {
      ghost var was := Here();
      gone := [];
      var freed := 0;
      forall j | 0 <= j < |order| ensures order[j] in unpacker.trees {
        var k := ElementOf(order, unpacker.trees, j);
      }
      var i := 0;
      while i < |order|
        invariant |gone| == i <= |order| && Valid()
        invariant freed == Freed(Sizes(order), gone)
        invariant Progress(was, Here(), order, gone, total, budget)
        invariant AsAsked(unpacker.obeys, order, gone)
      {
        if total - freed <= budget { break; }
        var ok := ForgetNext(order, i, was, gone, total, budget);
        FreedOneMore(order, gone, ok);
        gone := gone + [ok];
        if ok {
          freed := freed + order[i].bytes;
        }
        i := i + 1;
      }
    }

    /** Passes over a server nobody uses in between: once a pass leaves the volume within budget, no
        later one removes a tree. */
    method EvictLoop(budget: int, rounds: nat) returns (ghost seen: seq<seq<Tree>>)
      requires Valid()
      modifies this, unpacker
      ensures Valid()
      ensures budget <= 0 ==>
          unpacker.trees == old(unpacker.trees) && indexes == old(indexes) && lastUsed == old(lastUsed)
      ensures budget > 0 ==> |seen| == rounds
      ensures forall i, j :: 0 <= i < j < |seen| && Total(seen[i]) <= budget ==> seen[j] == seen[i]
      ensures unpacker.lists && Obeyed(old(unpacker.trees)) ==> forall i :: 0 <= i < |seen| ==> Total(seen[i]) <= budget
    {
      seen := [];
      if budget <= 0 { return; }
      for r := 0 to rounds
        invariant Valid() && |seen| == r
        invariant r > 0 ==> unpacker.trees == seen[r - 1]
        invariant forall i, j :: 0 <= i < j < |seen| && Total(seen[i]) <= budget ==> seen[j] == seen[i]
        invariant forall t :: t in unpacker.trees ==> t in old(unpacker.trees)
        invariant unpacker.lists && Obeyed(old(unpacker.trees)) ==>
                    forall i :: 0 <= i < |seen| ==> Total(seen[i]) <= budget
      {
        var ok, order, gone := EvictOnce(budget);
        seen := seen + [unpacker.trees];
      }
    }
  }
}
