/** The write side of a cached download: encoder -> buffer -> counter -> file, and the size promised to
    followers. The encoder (gzip) is a parameter, known only by what it hands down after each call. */
module Ingest {
  import opened CacheState

  const INGEST_BUF_SIZE := 32768

  datatype EncOp = Feed(data: Bytes) | Flush | Finish

  /** All the bytes an encoder has handed to the writer below it, after a history of calls. */
  type Encoder = seq<EncOp> -> Bytes
  type Decoder = Bytes -> Bytes

  function Fed(ops: seq<EncOp>): Bytes {
    if ops == [] then []
    else Fed(ops[..|ops| - 1]) + if ops[|ops| - 1].Feed? then ops[|ops| - 1].data else []
  }

  /** A streaming encoder: output is never taken back, and after a flush or the trailer
      all that was fed so far can be decoded from it. */
  ghost predicate Streaming(enc: Encoder, dec: Decoder) {
    && enc([]) == []
    && (forall ops: seq<EncOp>, op: EncOp {:trigger enc(ops + [op])} :: enc(ops) <= enc(ops + [op]))
    && (forall ops: seq<EncOp> {:trigger enc(ops)} ::
          |ops| > 0 && !ops[|ops| - 1].Feed? ==> dec(enc(ops)) == Fed(ops))
  }

  /** The file behind its counter. The disk takes `room` more bytes, then writes fail part-way. */
  class CountingFile {
    var file: Bytes
    var n: nat
    var room: nat

    ghost predicate Valid()
      reads this
    {
      n == |file|
    }

    /** How long the file can get. */
    ghost function Capacity(): nat
      reads this
    {
      |file| + room
    }

    constructor (room: nat)
      ensures Valid() && file == [] && this.room == room && Capacity() == room
    {
      file, n, this.room := [], 0, room;
    }

    method Write(p: Bytes) returns (k: nat, ok: bool)
      requires Valid()
      modifies this
      ensures Valid() && k <= |p| && ok == (k == |p|) && Capacity() == old(Capacity())
      ensures file == old(file) + p[..k]
      ensures k == if |p| <= old(room) then |p| else old(room)
    {
      k := if |p| <= room then |p| else room;
      file, n, room := file + p[..k], n + k, room - k;
      ok := k == |p|;
    }
  }

  /** bufio.Writer: an error sticks. */
  class BufWriter {
    const w: CountingFile
    var buf: Bytes
    var failed: bool

    ghost predicate Valid()
      reads this, w
    {
      w.Valid() && |buf| <= INGEST_BUF_SIZE
    }

    constructor (w: CountingFile)
      requires w.Valid()
      ensures this.w == w && Valid() && buf == [] && !failed
    {
      this.w, buf, failed := w, [], false;
    }

    method FlushBuffer() returns (ok: bool)
      requires Valid()
      modifies this, w
      ensures Valid() && ok == !failed && (old(failed) ==> failed)
      ensures w.file + buf == old(w.file + buf) && old(w.file) <= w.file && w.Capacity() == old(w.Capacity())
      ensures ok ==> buf == []
      ensures !old(failed) ==> (ok <==> |old(w.file + buf)| <= w.Capacity())
    {
      if failed {
        return false;
      }
      if buf == [] {
        return true;
      }
      var k, done := w.Write(buf);
      assert old(w.file + buf) == old(w.file) + (buf[..k] + buf[k..]);
      buf, failed := buf[k..], !done;
      ok := done;
    }

    /** copy into the buffer's free space. */
    method Fill(chunk: Bytes)
      requires Valid() && |buf| + |chunk| <= INGEST_BUF_SIZE
      modifies this`buf
      ensures buf == old(buf) + chunk
      ensures Valid() && w.file + buf == old(w.file + buf) + chunk && w.Capacity() == old(w.Capacity())
    {
      assert w.file + (buf + chunk) == w.file + buf + chunk;
      buf := buf + chunk;
    }

    /** On success everything has been taken; on failure some prefix of it has reached the file or the buffer. What fits
        into the buffer goes no further. */
    method Write(p: Bytes) returns (ok: bool)
      requires Valid()
      modifies this, w
      ensures Valid() && ok == !failed && (old(failed) ==> failed)
      ensures old(w.file) <= w.file
      ensures w.file + buf <= old(w.file + buf) + p
      ensures ok ==> w.file + buf == old(w.file + buf) + p
      ensures w.Capacity() == old(w.Capacity())
      ensures !old(failed) && !ok ==> |old(w.file + buf) + p| > w.Capacity()
      ensures !old(failed) && |old(buf)| + |p| <= 32768 ==> ok && w.file == old(w.file) && buf == old(buf) + p
    {
      ghost var base := w.file + buf;
      ghost var capacity := w.Capacity();
      var done: nat := 0;
      while |p| - done > INGEST_BUF_SIZE - |buf| && !failed
        invariant Valid() && done <= |p|
        invariant old(failed) ==> failed
        invariant old(w.file) <= w.file
        invariant w.file + buf == base + p[..done]
        invariant w.Capacity() == capacity && (!old(failed) && failed ==> |base + p| > capacity)
        invariant |old(buf)| + |p| <= INGEST_BUF_SIZE ==> done == 0 && w.file == old(w.file) && buf == old(buf)
                                                            && failed == old(failed)
        decreases |p| - done, |buf|, !failed
      {
        var k: nat;
        if buf == [] {
          assert w.file + buf == w.file;
          var whole;
          k, whole := w.Write(p[done..]);
          failed := !whole;
          assert w.file + buf == w.file;
        } else {
          k := INGEST_BUF_SIZE - |buf|;
          Fill(p[done..][..k]);
          var _ := FlushBuffer();
        }
        AppendSlice(base, p, done, k);
        done := done + k;
      }
      if failed {
        return false;
      }
      Fill(p[done..]);
      AppendSlice(base, p, done, |p| - done);
      assert p[done..][..|p| - done] == p[done..] && p[..|p|] == p;
      return true;
    }
  }

  lemma AppendSlice(base: Bytes, p: Bytes, i: nat, k: nat)
    requires i + k <= |p|
    ensures base + p[..i] + p[i..][..k] == base + p[..i + k]
  {
    assert p[..i] + p[i..][..k] == p[..i + k];
  }

  function Concat(chunks: seq<Bytes>): Bytes {
    if chunks == [] then [] else Concat(chunks[..|chunks| - 1]) + chunks[|chunks| - 1]
  }

  /** The calls that pieces lead to. */
  function CallsFor(chunks: seq<Bytes>): seq<EncOp> {
    if chunks == [] then []
    else
      var k := |chunks| - 1;
      CallsFor(chunks[..k]) + if chunks[k] == [] then [] else [Feed(chunks[k]), Flush]
  }

  /** The file that a body ends up in. */
  function Stored(compress: bool, enc: Encoder, chunks: seq<Bytes>): Bytes {
    if compress then enc(CallsFor(chunks) + [Finish]) else Concat(chunks)
  }

  lemma {:induction false} EncGrows(enc: Encoder, dec: Decoder, ops: seq<EncOp>, more: seq<EncOp>)
    requires Streaming(enc, dec)
    ensures enc(ops) <= enc(ops + more)
    decreases |more|
  {
    if more == [] {
      assert ops + more == ops;
    } else {
      var k := |more| - 1;
      EncGrows(enc, dec, ops, more[..k]);
      assert ops + more == ops + more[..k] + [more[k]];
      assert enc(ops + more[..k]) <= enc(ops + more[..k] + [more[k]]);
    }
  }

  lemma {:induction false} CallsGrow(chunks: seq<Bytes>, i: nat)
    requires i <= |chunks|
    ensures CallsFor(chunks[..i]) <= CallsFor(chunks)
    decreases |chunks|
  {
    if i == |chunks| {
      assert chunks[..i] == chunks;
    } else {
      var k := |chunks| - 1;
      CallsGrow(chunks[..k], i);
      assert chunks[..k][..i] == chunks[..i];
    }
  }

  lemma {:induction false} ConcatGrows(chunks: seq<Bytes>, i: nat)
    requires i <= |chunks|
    ensures |Concat(chunks[..i])| <= |Concat(chunks)|
    decreases |chunks|
  {
    if i == |chunks| {
      assert chunks[..i] == chunks;
    } else {
      var k := |chunks| - 1;
      ConcatGrows(chunks[..k], i);
      assert chunks[..k][..i] == chunks[..i];
    }
  }

  /** What has been handed down on the way never exceeds the file that the body ends up in. */
  lemma NeverMore(enc: Encoder, dec: Decoder, chunks: seq<Bytes>, i: nat, ops: seq<EncOp>)
    requires Streaming(enc, dec) && i <= |chunks| && ops <= CallsFor(chunks[..i])
    ensures |enc(ops)| <= |Stored(true, enc, chunks)|
  {
    CallsGrow(chunks, i);
    var all := CallsFor(chunks) + [Finish];
    EncGrows(enc, dec, ops, all[|ops|..]);
    assert ops + all[|ops|..] == all;
  }

  /** The file and the size promised of it once `taken` of the pieces have been dealt with. */
  datatype Moment = Moment(file: Bytes, size: nat, taken: nat)

  /** What became of one download's body: the pieces it came in, each promise made to the followers, and
      how it ended. */
  datatype Account = Account(compress: bool, dec: Decoder, chunks: seq<Bytes>, moments: seq<Moment>, complete: bool) {

    function Last(): Moment
      requires moments != []
    {
      moments[|moments| - 1]
    }

    function Reads(file: Bytes): Bytes { if compress then dec(file) else file }

    /** All of the pieces taken, and nothing else, can be read from what is promised, which is the whole file. */
    predicate Readable(m: Moment) {
      m.size == |m.file| && m.taken <= |chunks| && Reads(m.file) == Concat(chunks[..m.taken])
    }

    /** Files only grow, no promise is taken back or runs ahead of its file, and every piece gets its own. */
    predicate Advances(m: Moment, m': Moment) {
      && m.file <= m'.file && m.size <= m'.size <= |m'.file|
      && m.taken <= m'.taken <= |chunks|
      && forall i :: m.taken <= i < m'.taken - 1 ==> chunks[i] == []
    }

    ghost predicate Story() {
      && moments != []
      && (forall j :: 0 <= j < |moments| - 1 ==> Advances(moments[j], moments[j + 1]))
      && (forall j :: 0 < j < |moments| - 1 ==> Readable(moments[j]))
    }

    /** The account while i pieces have been dealt with. */
    ghost predicate UpTo(i: nat, file: Bytes, size: nat) {
      && Story() && i <= |chunks|
      && (|moments| > 1 ==> Readable(Last()))
      && Last().file == file && Last().size == size <= |file| && Last().taken <= i
      && forall k :: Last().taken <= k < i ==> chunks[k] == []
    }

    predicate Ends(file: Bytes, size: nat) {
      moments != [] && Last().file == file && Last().size == size
    }

    predicate Starts() {
      !complete && moments != [] && moments[0] == Moment(moments[0].file, 0, 0)
    }

    ghost predicate Same(compress: bool, dec: Decoder, chunks: seq<Bytes>, file: Bytes) {
      && this.compress == compress && this.dec == dec && this.chunks == chunks && !complete
      && moments != [] && moments[0] == Moment(file, 0, 0)
    }

    /** After every piece the whole of it is readable; a body that ended well is readable to its end, and one that did
        not leaves the last promise standing. */
    ghost predicate Told() {
      && Story() && |moments| > 1
      && (complete ==> Readable(Last()) && Last().taken == |chunks|)
      && (!complete ==> var before := moments[|moments| - 2];
          Last().size == before.size && Last().taken == before.taken)
    }
  }

  /** The writers of one download, and the size it has promised to its followers. */
  class Chain {
    const enc: Encoder
    ghost const dec: Decoder
    const compress: bool
    const cw: CountingFile
    const bw: BufWriter
    var ops: seq<EncOp>
    var closed: bool
    var size: nat
    ghost var accepted: Bytes   // what dst.Write has been given

    constructor (enc: Encoder, ghost dec: Decoder, compress: bool, room: nat)
      requires Streaming(enc, dec)
      ensures Valid() && Intact() && fresh(cw) && fresh(bw)
      ensures this.compress == compress && this.enc == enc && this.dec == dec
      ensures cw.file == [] && size == 0 && accepted == [] && !closed && ops == [] && cw.Capacity() == room
    {
      var file := new CountingFile(room);
      var buffer := new BufWriter(file);
      this.enc, this.dec, this.compress := enc, dec, compress;
      cw, bw, ops, closed, size, accepted := file, buffer, [], false, 0, [];
    }

    /** Whatever happens, no more is promised than is in the file. */
    ghost predicate Valid()
      reads this, cw, bw
    {
      bw.w == cw && bw.Valid() && size <= |cw.file| && Streaming(enc, dec)
    }

    /** No write has failed so far: everything handed down is in the file or in the buffer. */
    ghost predicate Intact()
      reads this, cw, bw
    {
      && !bw.failed
      && (compress ==> cw.file + bw.buf == enc(ops) && accepted == Fed(ops))
      && (!compress ==> cw.file == accepted && bw.buf == [])
      && (closed ==> |ops| > 0 && !ops[|ops| - 1].Feed?)
    }

    /** Nothing accepted is left in a stage above the file. */
    ghost predicate Drained()
      reads this, cw, bw
    {
      && size == |cw.file| && bw.buf == []
      && (compress ==> cw.file == enc(ops) && dec(cw.file) == accepted)
      && (!compress ==> cw.file == accepted)
    }

    /** More has been handed down than the disk has room for. */
    ghost predicate Overfull()
      reads this, cw
    {
      if compress then |enc(ops)| > cw.Capacity() else |accepted| > cw.Capacity()
    }

    /** The calls that one piece leads to. */
    ghost function Handling(chunk: Bytes): seq<EncOp> {
      if compress then [Feed(chunk), Flush] else []
    }

    /** One call to the encoder; what it hands down goes into the buffer. */
    method Encode(op: EncOp) returns (ok: bool)
      requires Valid() && compress && Intact()
      modifies this`ops, this`accepted, bw, cw
      ensures Valid() && old(cw.file) <= cw.file
      ensures ops == old(ops) + [op]
      ensures accepted == old(accepted) + if op.Feed? then op.data else []
      ensures ok ==> !bw.failed && cw.file + bw.buf == enc(ops) && accepted == Fed(ops)
      ensures cw.Capacity() == old(cw.Capacity()) && (!ok ==> |enc(ops)| > cw.Capacity())
    {
      var next := ops + [op];
      assert enc(ops) <= enc(next);
      var delta := enc(next)[|enc(ops)|..];
      assert enc(ops) + delta == enc(next);
      assert next[..|next| - 1] == ops;
      ok := bw.Write(delta);
      ops := next;
      accepted := accepted + if op.Feed? then op.data else [];
    }

    method DstWrite(chunk: Bytes) returns (ok: bool)
      requires Valid() && Intact() && !closed
      modifies this`ops, this`accepted, bw, cw
      ensures Valid() && old(cw.file) <= cw.file
      ensures accepted == old(accepted) + chunk && ops == old(ops) + if compress then [Feed(chunk)] else []
      ensures ok ==> Intact()
      ensures cw.Capacity() == old(cw.Capacity()) && (!ok ==> Overfull())
    {
      if compress {
        ok := Encode(Feed(chunk));
      } else {
        var k;
        k, ok := cw.Write(chunk);
        accepted := accepted + chunk;
      }
    }

    /** Closes every buffering stage and only then announces the size. */
    method PublishSize() returns (ok: bool)
      requires Valid() && Intact()
      modifies this`ops, this`accepted, this`size, bw, cw
      ensures Valid() && old(cw.file) <= cw.file
      ensures accepted == old(accepted)
      ensures ops == old(ops) + if compress && !closed then [Flush] else []
      ensures ok ==> Intact() && Drained()
      ensures !ok ==> size == old(size)
      ensures size >= old(size)
      ensures cw.Capacity() == old(cw.Capacity()) && (!ok ==> Overfull())
    {
      if compress {
        if !closed {   // a closed encoder's flush does nothing
          ok := Encode(Flush);
          if !ok {
            return false;
          }
        }
        ok := bw.FlushBuffer();
        if !ok {
          return false;
        }
        assert cw.file + bw.buf == cw.file;
        LastIsNotFeed();
      }
      size := cw.n;
      return true;
    }

    lemma LastIsNotFeed()
      requires Streaming(enc, dec) && |ops| > 0 && !ops[|ops| - 1].Feed?
      ensures dec(enc(ops)) == Fed(ops)
    {
    }

    /** The encoder's trailer. */
    method Close() returns (ok: bool)
      requires Valid() && Intact() && !closed
      modifies this`ops, this`accepted, this`closed, bw, cw
      ensures Valid() && old(cw.file) <= cw.file
      ensures accepted == old(accepted) && ops == old(ops) + if compress then [Finish] else []
      ensures ok ==> Intact() && (compress ==> closed)
      ensures cw.Capacity() == old(cw.Capacity()) && (!ok ==> Overfull())
    {
      ok := true;
      if compress {
        ok := Encode(Finish);
        closed := true;
      }
    }

    /** One piece off the network: handed down, then promised. */
    method Take(chunk: Bytes) returns (ok: bool)
      requires Valid() && Intact() && !closed
      modifies this`ops, this`accepted, this`size, bw, cw
      ensures Valid() && old(cw.file) <= cw.file && size >= old(size)
      ensures ok ==> Intact() && Drained() && accepted == old(accepted) + chunk
      ensures ok ==> ops == old(ops) + Handling(chunk)
      ensures !ok ==> size == old(size)
      ensures cw.Capacity() == old(cw.Capacity())
      ensures !ok ==> Overfull() && old(ops) <= ops <= old(ops) + Handling(chunk) && accepted == old(accepted) + chunk
    {
      ok := DstWrite(chunk);
      if ok {
        ok := PublishSize();
      }
    }

    /** The end of the body: the trailer, then the last promise. */
    method Conclude() returns (ok: bool)
      requires Valid() && Intact() && !closed
      modifies this`ops, this`accepted, this`closed, this`size, bw, cw
      ensures Valid() && old(cw.file) <= cw.file && size >= old(size)
      ensures ok ==> Drained() && accepted == old(accepted)
      ensures !ok ==> size == old(size)
      ensures cw.Capacity() == old(cw.Capacity()) && accepted == old(accepted)
      ensures ops == old(ops) + if compress then [Finish] else []
      ensures !ok ==> Overfull()
    {
      ok := Close();
      if ok {
        ok := PublishSize();
      }
    }

    /** The account of a download that has dealt with i pieces, and this chain beside it. */
    ghost predicate Beside(a: Account, i: nat)
      reads this, cw, bw
    {
      && Valid() && Intact() && !closed
      && a.UpTo(i, cw.file, size) && accepted == Concat(a.chunks[..i])
      && a.compress == compress && a.dec == dec
      && (compress ==> ops == CallsFor(a.chunks[..i]))
    }

    method TakeNext(ghost a: Account, i: nat, chunk: Bytes) returns (ok: bool, ghost a': Account)
      requires Beside(a, i) && a.Starts() && i < |a.chunks| && chunk == a.chunks[i]
      modifies this`ops, this`accepted, this`size, bw, cw
      ensures Valid() && a'.Same(a.compress, a.dec, a.chunks, a.moments[0].file)
      ensures ok ==> Beside(a', i + 1)
      ensures !ok ==> a'.Told() && a'.Ends(cw.file, size)
      ensures cw.Capacity() == old(cw.Capacity())
      ensures !ok ==> |Stored(compress, enc, a.chunks)| > cw.Capacity()
    {
      assert a.chunks[..i + 1][..i] == a.chunks[..i];
      if chunk == [] {
        NothingTaken(a, i, cw.file, size);
        return true, a;
      }
      ok := Take(chunk);
      assert old(ops) + [Feed(chunk), Flush] == old(ops) + [Feed(chunk)] + [Flush];
      if !ok {
        TooMuch(a.chunks, i + 1);
      }
      a' := if ok then Promised(a, i, i + 1, cw.file) else GivenUp(a, i, cw.file);
    }

    /** What did not fit on the way does not fit in the end. */
    lemma TooMuch(chunks: seq<Bytes>, i: nat)
      requires Streaming(enc, dec) && i <= |chunks| && Overfull()
      requires compress ==> ops <= CallsFor(chunks[..i])
      requires !compress ==> accepted == Concat(chunks[..i])
      ensures |Stored(compress, enc, chunks)| > cw.Capacity()
    {
      if compress {
        NeverMore(enc, dec, chunks, i, ops);
      } else {
        ConcatGrows(chunks, i);
      }
    }

    /** The pieces, until the first that cannot be stored. */
    method TakeAll(chunks: seq<Bytes>) returns (ok: bool, ghost account: Account)
      requires Valid() && Intact() && !closed && accepted == [] && size == 0 && ops == []
      modifies this`ops, this`accepted, this`size, bw, cw
      ensures Valid() && account.Same(compress, dec, chunks, old(cw.file))
      ensures ok ==> Beside(account, |chunks|)
      ensures !ok ==> account.Told() && account.Ends(cw.file, size)
      ensures cw.Capacity() == old(cw.Capacity())
      ensures !ok ==> |Stored(compress, enc, chunks)| > cw.Capacity()
    {
      var i := 0;
      account := Account(compress, dec, chunks, [Moment(cw.file, 0, 0)], false);
      while i < |chunks|
        invariant 0 <= i <= |chunks|
        invariant account.Same(compress, dec, chunks, old(cw.file)) && Beside(account, i)
        invariant cw.Capacity() == old(cw.Capacity())
      {
        ok, account := TakeNext(account, i, chunks[i]);
        if !ok {
          return;
        }
        i := i + 1;
      }
      ok := true;
    }

    /** The body of a download: what the upstream sends, in the pieces it arrives in, then its end or an error. It is
        complete exactly when the upstream came to its end and the disk had room for the whole file. */
    method Pump(chunks: seq<Bytes>, eof: bool) returns (bodyComplete: bool, ghost account: Account)
      requires Valid() && Intact() && !closed && accepted == [] && size == 0 && ops == []
      modifies this, bw, cw
      ensures Valid() && bodyComplete == account.complete
      ensures bodyComplete <==> eof && |Stored(compress, enc, chunks)| <= old(cw.Capacity())
      ensures bodyComplete ==> cw.file == Stored(compress, enc, chunks)
      ensures account.(complete := false).Same(compress, dec, chunks, old(cw.file))
      ensures account.Told() && account.Ends(cw.file, size)
    {
      bodyComplete, account := TakeAll(chunks);
      if !bodyComplete {
        return;
      }
      assert chunks[..|chunks|] == chunks;
      bodyComplete := false;
      if eof {
        bodyComplete := Conclude();
      }
      if bodyComplete {
        account := Promised(account, |chunks|, |chunks|, cw.file).(complete := true);
      } else {
        account := GivenUp(account, |chunks|, cw.file);
      }
    }
  }

  lemma AddKeepsStory(a: Account, m: Moment)
    requires a.Story() && (|a.moments| > 1 ==> a.Readable(a.Last())) && a.Advances(a.Last(), m)
    ensures a.(moments := a.moments + [m]).Story()
  {
    var a' := a.(moments := a.moments + [m]);
    forall j | 0 <= j < |a'.moments| - 1 ensures a'.Advances(a'.moments[j], a'.moments[j + 1]) {
      assert j < |a.moments| - 1 ==> a.Advances(a.moments[j], a.moments[j + 1]);
    }
    forall j | 0 < j < |a'.moments| - 1 ensures a'.Readable(a'.moments[j]) {
      assert a.Readable(a.moments[j]);
    }
  }

  /** Another promise: the whole file. */
  ghost function Promised(a: Account, i: nat, taken: nat, file: Bytes): (a': Account)
    requires a.Starts() && a.UpTo(i, a.Last().file, a.Last().size) && a.Last().file <= file
    requires i <= taken <= i + 1 && taken <= |a.chunks| && a.Reads(file) == Concat(a.chunks[..taken])
    ensures a'.Same(a.compress, a.dec, a.chunks, a.moments[0].file)
    ensures a'.UpTo(taken, file, |file|) && a'.Last() == Moment(file, |file|, taken) && |a'.moments| > 1
  {
    AddKeepsStory(a, Moment(file, |file|, taken));
    a.(moments := a.moments + [Moment(file, |file|, taken)])
  }

  /** The end without another promise. */
  ghost function GivenUp(a: Account, i: nat, file: Bytes): (a': Account)
    requires a.Starts() && a.UpTo(i, a.Last().file, a.Last().size) && a.Last().file <= file
    ensures a'.Same(a.compress, a.dec, a.chunks, a.moments[0].file)
    ensures a'.Told() && a'.Last() == a.Last().(file := file)
  {
    AddKeepsStory(a, a.Last().(file := file));
    a.(moments := a.moments + [a.Last().(file := file)])
  }

  lemma NothingTaken(a: Account, i: nat, file: Bytes, size: nat)
    requires a.UpTo(i, file, size) && i < |a.chunks| && a.chunks[i] == []
    ensures a.UpTo(i + 1, file, size)
  {
  }
}
