/** The read side of a download in progress: `Read` waits at the write head instead of reporting an end. */
module EntryReader {
  import opened CacheState
  import opened Options

  /** What a reader finds at one moment: the entry's fields, the file behind them, whether its own client has
      gone, and what the filesystem is ready to give to a pread. */
  datatype View = View(file: Bytes, size: nat, done: bool, err: Option<Fault>, cancelled: bool, gives: nat,
    io: Option<Fault>)

  predicate Kept(v: View) {
    v.size <= |v.file| && (v.done && v.err == None ==> v.size == |v.file|)
  }

  /** What the download's steps leave true between two moments. */
  predicate Later(v: View, u: View) {
    && v.file <= u.file && v.size <= u.size
    && (v.done ==> u.done && u.err == v.err && u.size == v.size)
    && (v.done && v.err == None ==> u.file == v.file)
    && (v.cancelled ==> u.cancelled)
  }

  /** A sequence of moments, by the end of which the download is over or the client has gone.
      Moments may repeat, so a history fixes no pace. */
  ghost predicate History(views: seq<View>) {
    && |views| > 0
    && (forall i :: 0 <= i < |views| ==> Kept(views[i]))
    && (forall i, j :: 0 <= i <= j < |views| ==> Later(views[i], views[j]))
    && (views[|views| - 1].done || views[|views| - 1].cancelled)
  }

  /** The client is there, the download has no error, and a pread that may give something gives something. */
  predicate Untroubled(v: View) {
    !v.cancelled && v.err == None && v.gives > 0
  }

  /** Why a read at this offset may fail, by what was found in some moments: the client gone, the download's own
      error, an error of the filesystem; or a download that is over although a pread below its size gave nothing. */
  ghost predicate Because(views: seq<View>, off: nat, fault: Fault, from: nat, to: nat)
    requires to < |views|
  {
    || (fault == Cancelled && exists i :: from <= i <= to && views[i].cancelled)
    || (exists i :: from <= i <= to && views[i].err == Some(fault))
    || (exists i :: from <= i <= to && views[i].gives == 0 && views[i].io == Some(fault))
    || (fault == UnexpectedEof && exists i, j :: from <= i <= j <= to && ShortAt(views, off, i, j))
  }

  predicate ShortAt(views: seq<View>, off: nat, i: nat, j: nat)
    requires i < |views| && j < |views|
  {
    views[i].gives == 0 && views[i].size > off && views[j].done && views[j].err == None
  }

  lemma BecauseThen(views: seq<View>, off: nat, fault: Fault, from: nat, from': nat, to: nat, to': nat)
    requires to < |views| && Because(views, off, fault, from, to) && from' <= from && to <= to' < |views|
    ensures Because(views, off, fault, from', to')
  {
  }

  lemma NoReason(views: seq<View>, off: nat, fault: Fault, from: nat, to: nat)
    requires to < |views| && forall i :: from <= i <= to ==> Untroubled(views[i])
    ensures !Because(views, off, fault, from, to)
  {
  }

  datatype ReadEnd = EndOfFile | Failed(fault: Fault)

  method Fill(p: array<Byte>, given: Bytes)
    requires |given| <= p.Length
    modifies p
    ensures p[..|given|] == given
  {
    for i := 0 to |given|
      invariant p[..i] == given[..i]
    {
      p[i] := given[i];
    }
  }

  lemma SamePrefix(a: Bytes, b: Bytes, from: nat, n: nat)
    requires a <= b && from + n <= |a|
    ensures a[from..from + n] == b[from..from + n]
  {
  }

  class Reader {
    const views: seq<View>
    var now: nat
    var off: nat

    ghost predicate Valid()
      reads this
    {
      History(views) && now < |views| && off <= views[now].size
    }

    ghost function Last(): View
      requires |views| > 0
    {
      views[|views| - 1]
    }

    constructor (views: seq<View>)
      requires History(views)
      ensures Valid() && this.views == views && off == 0
    {
      this.views, now, off := views, 0, 0;
    }

    ghost predicate AllUntroubled(from: nat) {
      forall i :: from <= i < |views| ==> Untroubled(views[i])
    }

    /** Time passes. */
    method Look() returns (v: View)
      requires Valid()
      modifies this`now
      ensures Valid() && v == views[now]
      ensures now == if old(now) + 1 < |views| then old(now) + 1 else old(now)
    {
      if now + 1 < |views| {
        assert Later(views[now], views[now + 1]);
        now := now + 1;
      }
      v := views[now];
    }

    /** A read that gives bytes gives the next ones of the file, within what was promised; it reports the end only
        when the download is over without an error and everything in the file has been read. A failure has its reason;
        and while there is none, it does not sleep on what has been published. */
    method Read(p: array<Byte>) returns (n: nat, end: Option<ReadEnd>)
      requires Valid()
      modifies this, p
      ensures Valid() && n <= p.Length && off == old(off) + n && off <= Last().size
      ensures p[..n] == Last().file[old(off)..off]
      ensures end.Some? ==> n == 0
      ensures n == 0 && end == None ==> p.Length == 0
      ensures end == Some(EndOfFile) ==> Last().done && Last().err == None && off == |Last().file|
      ensures old(now) <= now && forall fault :: end == Some(Failed(fault)) ==>
          Because(views, off, fault, old(now), now)
      ensures AllUntroubled(old(now)) ==>
                forall i :: old(now) <= i < |views| && views[i].size > old(off) ==> now <= i + 3
    {
      if p.Length == 0 {
        LastIsLater(now);
        return 0, None;
      }
      while true
        invariant Valid() && off == old(off) && old(now) <= now
        invariant AllUntroubled(old(now)) ==>
                    forall i :: old(now) <= i < |views| && views[i].size > off ==> now <= i + 1
        decreases |views| - now
      {
        ghost var start := now;
        n, end := Attempt(p);
        assert forall i :: 0 <= i <= start ==> Later(views[i], views[start]);
        if n > 0 || end.Some? {
          return;
        }
      }
    }

    /** One round of the loop. */
    method Attempt(p: array<Byte>) returns (n: nat, end: Option<ReadEnd>)
      requires Valid() && p.Length > 0
      modifies this, p
      ensures Valid() && n <= p.Length && off == old(off) + n && off <= Last().size
      ensures p[..n] == Last().file[old(off)..off]
      ensures end.Some? ==> n == 0
      ensures n == 0 && end == None ==> old(now) + 1 < |views| && old(now) < now
      ensures end == Some(EndOfFile) ==> Last().done && Last().err == None && off == |Last().file|
      ensures old(now) <= now && forall fault :: end == Some(Failed(fault)) ==>
          Because(views, off, fault, old(now), now)
      ensures AllUntroubled(old(now)) ==>
                forall i :: old(now) <= i < |views| && views[i].size > old(off) ==> now <= i + if n > 0 then 2 else 1
      ensures AllUntroubled(old(now)) && n == 0 && end == None ==> views[old(now)].size <= off
    {
      ghost var start := now;
      var v := Look();
      ghost var seen := now;
      LastIsLater(now);
      if v.size > off {
        n, end := ReadAt(p, v.size - off);
        ghost var dry := now;
        assert n == 0 ==> views[dry].gives == 0 && views[dry].size >= v.size by {
          assert Later(views[seen], views[dry]);
        }
        if n > 0 || end.Some? {
          if end.Some? {
            BecauseThen(views, off, end.value.fault, seen, start, now, now);
          }
          return;
        }
        end := AfterDry(dry);
        if end.Some? {
          BecauseThen(views, off, end.value.fault, dry, start, now, now);
        }
      } else {
        end := AtHead();
        n := 0;
        if end.Some? && end.value.Failed? {
          BecauseThen(views, off, end.value.fault, seen, start, now, now);
        }
      }
    }

    /** Caught up with the download: sleep until there is more, it is over, or the client has gone. */
    method AtHead() returns (end: Option<ReadEnd>)
      requires Valid() && views[now].size <= off
      modifies this`now
      ensures Valid() && old(now) <= now
      ensures end == None ==> old(now) + 1 < |views| && views[now].size > off
      ensures forall fault :: end == Some(Failed(fault)) ==> Because(views, off, fault, old(now), now)
      ensures forall i :: old(now) <= i < |views| && views[i].size > off ==> now <= i + 1
      ensures end == Some(EndOfFile) ==> Last().done && Last().err == None && off == |Last().file|
    {
      ghost var start := now;
      var v := Look();
      while v.size <= off && !v.done && !v.cancelled
        invariant Valid() && v == views[now] && start <= now
        invariant forall i :: start <= i < now ==> views[i].size <= off
        decreases |views| - now
      {
        v := Look();
      }
      var finished, derr := v.done && v.size <= off, v.err;
      LastIsLater(now);
      var u := Look();
      if u.cancelled {
        return Some(Failed(Cancelled));
      }
      if finished {
        return Some(if derr.Some? then Failed(derr.value) else EndOfFile);
      }
      return None;
    }

    lemma LastIsLater(i: nat)
      requires History(views) && i < |views|
      ensures Later(views[i], Last()) && Kept(Last())
    {
    }

    /** pread of at most `avail` bytes: what it gives, an error, or neither. */
    method ReadAt(p: array<Byte>, avail: nat) returns (n: nat, end: Option<ReadEnd>)
      requires Valid() && off + avail <= views[now].size && p.Length > 0 && avail > 0
      modifies this, p
      ensures Valid() && n <= p.Length && off == old(off) + n && off <= Last().size
      ensures p[..n] == Last().file[old(off)..off]
      ensures end.Some? ==> n == 0 && end.value.Failed? && Because(views, off, end.value.fault, old(now), now)
      ensures old(now) <= now <= old(now) + 1
      ensures n == 0 ==> views[now].gives == 0
    {
      ghost var start := now;
      var len := if p.Length <= avail then p.Length else avail;
      var v := Look();
      assert Later(views[start], v) && Kept(v);
      LastIsLater(now);
      n := if len <= v.gives then len else v.gives;
      Fill(p, v.file[off..off + n]);
      SamePrefix(v.file, Last().file, off, n);
      end := if n == 0 && v.io.Some? then Some(Failed(v.io.value)) else None;
      off := off + n;
    }

    /** Something was promised and nothing was read: give up if the download is over, or the client gone. */
    method AfterDry(ghost dry: nat) returns (end: Option<ReadEnd>)
      requires Valid() && dry <= now && views[dry].gives == 0 && views[dry].size > off
      modifies this`now
      ensures Valid() && old(now) <= now
      ensures end.Some? ==> end.value.Failed? && Because(views, off, end.value.fault, dry, now)
      ensures end == None ==> old(now) + 1 < |views|
    {
      ghost var start := now;
      var v := Look();
      assert Later(views[start], v);
      if v.err.Some? {
        return Some(Failed(v.err.value));
      }
      if v.done {
        assert ShortAt(views, off, dry, now);
        return Some(Failed(UnexpectedEof));
      }
      v := Look();
      assert Later(views[start], v);
      return if v.cancelled then Some(Failed(Cancelled)) else None;
    }

    /** io.Copy to a client that takes what it is given: a clean end means it got the whole file. */
    method CopyAll(bufSize: nat) returns (sent: Bytes, clean: bool)
      requires Valid() && off == 0 && bufSize > 0
      modifies this
      ensures sent <= Last().file
      ensures AllUntroubled(old(now)) ==> clean
      ensures clean ==> Last().done && Last().err == None && sent == Last().file
    {
      var buf := new Byte[bufSize];
      sent := [];
      while true
        invariant Valid() && off <= Last().size <= |Last().file| && sent == Last().file[..off] && old(now) <= now
        invariant fresh(buf) && buf.Length > 0
        decreases |Last().file| - off
      {
        ghost var from := now;
        var n, end := Read(buf);
        if AllUntroubled(old(now)) && end.Some? && end.value.Failed? {
          NoReason(views, off, end.value.fault, from, now);
        }
        assert Last().file[..off - n] + Last().file[off - n..off] == Last().file[..off];
        sent := sent + buf[..n];
        if end.Some? {
          assert end == Some(EndOfFile) ==> Last().file[..off] == Last().file;
          return sent, end == Some(EndOfFile);
        }
      }
    }
  }
}
