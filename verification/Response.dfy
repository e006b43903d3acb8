/** Committing a response: the logging writers of the proxy and of the nix backend, the middleware around a handler,
    and the proxy's handler with its way around a busy cache. */
module Response {
  import opened Options

  type Bytes = string

  const SAMPLE_BYTES := 102400

  const OK := 200
  const NOT_FOUND := 404
  const INTERNAL_ERROR := 500
  const NOT_IMPLEMENTED := 501
  const UNAVAILABLE := 503

  /** What net/http accepts as a status; it panics on anything else. */
  type Status = c: nat | 100 <= c <= 999 witness 200

  /** Section 15.2 of RFC 9110; switching protocols is the one 1xx that net/http treats as final. */
  predicate Informational(code: Status) {
    code < 200 && code != 101
  }

  /** What a handler may do to its response. */
  datatype Call = Header(code: Status) | Body(data: Bytes)

  datatype Service = Proxy | Nix

  datatype Error = SourceNotImplemented | NotFound | TemporaryDown | NotExist | Busy | Other

  /** An error a handler returns: everything errors.Is would recognise in it, and its text. */
  datatype Failure = Failure(kinds: set<Error>, message: string)

  // ------------------------------------------------------------------ the wire

  /** net/http's own response: what the client gets. */
  class Wire {
    var status: Option<Status>
    var hints: seq<Status>
    var body: Bytes
    var superfluous: nat
    var broken: bool   // a write to the client has failed

    constructor ()
      ensures status == None && hints == [] && body == "" && superfluous == 0 && !broken
    {
      status, hints, body, superfluous, broken := None, [], "", 0, false;
    }

    method WriteHeader(code: Status)
      modifies this
      ensures body == old(body) && broken == old(broken)
      ensures old(status).Some? ==> status == old(status) && hints == old(hints) && superfluous == old(superfluous) + 1
      ensures old(status).None? && Informational(code) ==>
          status == None && hints == old(hints) + [code] && superfluous == old(superfluous)
      ensures old(status).None? && !Informational(code) ==>
          status == Some(code) && hints == old(hints) && superfluous == old(superfluous)
    {
      if status.Some? {
        superfluous := superfluous + 1;
      } else if Informational(code) {
        hints := hints + [code];
      } else {
        status := Some(code);
      }
    }

    /** The client takes all of it, or some and there is an error. A first write commits a 200. */
    method Write(data: Bytes) returns (n: nat, failed: bool)
      modifies this
      ensures n <= |data| && (n < |data| ==> failed) && broken == (old(broken) || failed)
      ensures body == old(body) + data[..n]
      ensures status == if old(status).None? then Some(OK) else old(status)
      ensures hints == old(hints) && superfluous == old(superfluous)
    {
      if status.None? {
        status := Some(OK);
      }
      failed := *;
      var taken: int := *;
      n := if failed && 0 <= taken < |data| then taken else |data|;
      body := body + data[..n];
      broken := broken || failed;
    }

    /** The handler has returned: net/http sends a 200 if no final status went out. */
    method End()
      modifies this`status
      ensures status == if old(status).None? then Some(OK) else old(status)
    {
      if status.None? {
        status := Some(OK);
      }
    }
  }

  // ------------------------------------------------------------------ the logging writer

  /** Does this call commit the response, as the writer sees it? */
  predicate Commits(service: Service, c: Call) {
    c.Body? || service == Proxy || c.code >= 200
  }

  predicate Committed(service: Service, calls: seq<Call>) {
    exists i :: 0 <= i < |calls| && Commits(service, calls[i])
  }

  /** The status the writer records: that of the first call to commit. */
  function Recorded(service: Service, calls: seq<Call>): nat {
    if calls == [] then 0
    else
      var before := Recorded(service, calls[..|calls| - 1]);
      var last := calls[|calls| - 1];
      if before != 0 || !Commits(service, last) then before
      else if last.Body? then OK else last.code
  }

  /** The calls that part the writer's view of the status from the client's: a status taken for final that net/http
      sends as a hint, or taken for a hint that net/http sends as final. */
  predicate Misjudged(service: Service, c: Call) {
    c.Header? && (if service == Proxy then Informational(c.code) else c.code == 101)
  }

  predicate Slips(service: Service, calls: seq<Call>) {
    exists i :: 0 <= i < |calls| && Misjudged(service, calls[i]) && !Committed(service, calls[..i])
  }

  lemma {:induction false} RecordedWhenCommitted(service: Service, calls: seq<Call>)
    ensures Recorded(service, calls) != 0 <==> Committed(service, calls)
    ensures Committed(service, calls) ==> 100 <= Recorded(service, calls) <= 999
    ensures service == Nix && Committed(service, calls) ==> Recorded(service, calls) >= 200
  {
    if calls == [] {
    } else {
      var init := calls[..|calls| - 1];
      RecordedWhenCommitted(service, init);
      assert forall i :: 0 <= i < |init| ==> init[i] == calls[i];
    }
  }

  lemma CommittedOneMore(service: Service, calls: seq<Call>, c: Call)
    ensures Committed(service, calls + [c]) <==> Committed(service, calls) || Commits(service, c)
  {
    var more := calls + [c];
    assert more[|calls|] == c;
    if i :| 0 <= i < |calls| && Commits(service, calls[i]) {
      assert more[i] == calls[i];
    }
    if i :| 0 <= i < |more| && Commits(service, more[i]) {
      assert i < |calls| ==> more[i] == calls[i];
    }
  }

  lemma SlipsOneMore(service: Service, calls: seq<Call>, c: Call)
    ensures Slips(service, calls + [c]) <==>
        Slips(service, calls) || (Misjudged(service, c) && !Committed(service, calls))
  {
    var more := calls + [c];
    assert more[|calls|] == c && more[..|calls|] == calls;
    if i :| 0 <= i < |calls| && Misjudged(service, calls[i]) && !Committed(service, calls[..i]) {
      assert more[i] == calls[i] && more[..i] == calls[..i];
    }
    if i :| 0 <= i < |more| && Misjudged(service, more[i]) && !Committed(service, more[..i]) {
      assert i < |calls| ==> more[i] == calls[i] && more[..i] == calls[..i];
    }
  }

  lemma OneCallMore(service: Service, calls: seq<Call>, c: Call)
    ensures Committed(service, calls + [c]) <==> Committed(service, calls) || Commits(service, c)
    ensures Slips(service, calls + [c]) <==>
        Slips(service, calls) || (Misjudged(service, c) && !Committed(service, calls))
    ensures Recorded(service, calls + [c]) ==
              if Committed(service, calls) || !Commits(service, c) then Recorded(service, calls)
              else if c.Body? then OK else c.code
  {
    CommittedOneMore(service, calls, c);
    SlipsOneMore(service, calls, c);
    RecordedWhenCommitted(service, calls);
    assert (calls + [c])[..|calls|] == calls;
  }

  class LoggingResponseWriter {
    const service: Service
    const wire: Wire
    var statusCode: nat
    var wroteHeader: bool
    var bytesSent: nat
    var sampleDuration: int
    ghost var calls: seq<Call>

    ghost predicate Valid()
      reads this, wire
    {
      && wroteHeader == Committed(service, calls)
      && statusCode == Recorded(service, calls)
      && bytesSent == |wire.body|
      && sampleDuration >= -1
      && (sampleDuration != -1 <==> bytesSent > SAMPLE_BYTES)
      && (!wroteHeader ==> wire.body == "")
      && (calls == [] ==> wire.hints == [])
      && (!Slips(service, calls) ==>
            wire.superfluous == 0 && wire.status == if wroteHeader then Some(statusCode) else None)
      && (Slips(service, calls) && wire.status.Some? ==> wire.status.value != statusCode)
      && (Slips(service, calls) && service == Nix ==> wire.status == Some(101))
      && (Slips(service, calls) && service == Proxy ==> wroteHeader && statusCode < 200 && statusCode != 101
                                                        && (wire.status.None? || wire.status == Some(OK)))
    }

    constructor (service: Service)
      ensures Valid() && calls == [] && this.service == service && fresh(wire)
      ensures wire.status == None && wire.hints == [] && wire.body == "" && !wire.broken
    {
      this.service := service;
      wire := new Wire();
      statusCode, wroteHeader, bytesSent, sampleDuration := 0, false, 0, -1;
      calls := [];
    }

    method WriteHeader(code: Status)
      requires Valid()
      modifies this, wire
      ensures Valid() && calls == old(calls) + [Header(code)]
      ensures wire.body == old(wire.body) && wire.broken == old(wire.broken)
      ensures service == Nix && code < 200 ==> wroteHeader == old(wroteHeader) && statusCode == old(statusCode)
      ensures service == Nix && Informational(code) && !old(wroteHeader) && old(wire.status).None? ==>
                wire.status == None && wire.hints == old(wire.hints) + [code]
      ensures old(wroteHeader) ==> wire.status == old(wire.status) && wire.hints == old(wire.hints)
      ensures !Informational(code) ==> wire.hints == old(wire.hints)
      ensures bytesSent == old(bytesSent) && sampleDuration == old(sampleDuration)
      ensures wroteHeader == (old(wroteHeader) || Commits(service, Header(code)))
    {
      OneCallMore(service, calls, Header(code));
      RecordedWhenCommitted(service, calls);
      calls := calls + [Header(code)];
      if service == Nix && code < 200 {
        if !wroteHeader {
          wire.WriteHeader(code);
        }
        return;
      }
      if wroteHeader {
        return;
      }
      wroteHeader := true;
      statusCode := code;
      wire.WriteHeader(code);
    }

    method Write(data: Bytes, elapsed: nat) returns (n: nat, failed: bool)
      requires Valid()
      modifies this, wire
      ensures Valid()
      ensures calls == old(calls) + (if old(wroteHeader) then [] else [Header(OK)]) + [Body(data)]
      ensures n <= |data| && (n < |data| ==> failed) && wire.broken == (old(wire.broken) || failed)
      ensures wroteHeader && wire.status.Some? && wire.body == old(wire.body) + data[..n]
      ensures wire.hints == old(wire.hints)
      ensures sampleDuration == if old(sampleDuration) == -1 && bytesSent > SAMPLE_BYTES then elapsed
          else old(sampleDuration)
    {
      if !wroteHeader {
        WriteHeader(OK);
      }
      n, failed := Append(data, elapsed);
    }

    /** The part of Write that runs once the response is committed. */
    method Append(data: Bytes, elapsed: nat) returns (n: nat, failed: bool)
      requires Valid() && wroteHeader
      modifies this, wire
      ensures Valid() && wroteHeader && calls == old(calls) + [Body(data)]
      ensures n <= |data| && (n < |data| ==> failed) && wire.broken == (old(wire.broken) || failed)
      ensures wire.status.Some? && wire.body == old(wire.body) + data[..n] && wire.hints == old(wire.hints)
      ensures sampleDuration == if old(sampleDuration) == -1 && bytesSent > SAMPLE_BYTES then elapsed
          else old(sampleDuration)
    {
      OneCallMore(service, calls, Body(data));
      calls := calls + [Body(data)];
      n, failed := wire.Write(data);
      bytesSent := bytesSent + n;
      if sampleDuration == -1 && bytesSent > SAMPLE_BYTES {
        sampleDuration := elapsed;
      }
    }
  }

  // ------------------------------------------------------------------ the middleware

  function PageStatus(service: Service, kinds: set<Error>): Status {
    match service
    case Proxy =>
      if SourceNotImplemented in kinds then NOT_IMPLEMENTED
      else if NotFound in kinds then NOT_FOUND
      else if TemporaryDown in kinds then UNAVAILABLE
      else INTERNAL_ERROR
    case Nix =>
      if NotFound in kinds || NotExist in kinds then NOT_FOUND else INTERNAL_ERROR
  }

  function PageText(service: Service, f: Failure): Bytes {
    var code := PageStatus(service, f.kinds);
    (if code == NOT_IMPLEMENTED then "source not implemented"
     else if code == NOT_FOUND then "not found"
     else if code == UNAVAILABLE then f.message
     else "Internal Server Error") + "\n"
  }

  /** Which page an error has: for the proxy, the first of these that the error says; for the nix backend, that there
      is nothing. Anything else is a 500, whose text says nothing of the error. */
  lemma PageSays(kinds: set<Error>, message: Bytes)
    ensures var code, text := PageStatus(Proxy, kinds), PageText(Proxy, Failure(kinds, message));
      && (SourceNotImplemented in kinds ==> code == 501 && text == "source not implemented\n")
      && (SourceNotImplemented !in kinds && NotFound in kinds ==> code == 404 && text == "not found\n")
      && (SourceNotImplemented !in kinds && NotFound !in kinds && TemporaryDown in kinds ==>
            code == 503 && text == message + "\n")
      && (SourceNotImplemented !in kinds && NotFound !in kinds && TemporaryDown !in kinds ==>
            code == 500 && text == "Internal Server Error\n")
    ensures var code, text := PageStatus(Nix, kinds), PageText(Nix, Failure(kinds, message));
      && (NotFound in kinds || NotExist in kinds ==> code == 404 && text == "not found\n")
      && (NotFound !in kinds && NotExist !in kinds ==> code == 500 && text == "Internal Server Error\n")
  {
  }

  lemma PagesNeverSlip(service: Service, calls: seq<Call>, code: Status, text: Bytes)
    requires code >= 200
    ensures Slips(service, calls + [Header(code)] + [Body(text)]) <==> Slips(service, calls)
    ensures !Committed(service, calls) ==> Recorded(service, calls + [Header(code)] + [Body(text)]) == code
  {
    OneCallMore(service, calls, Header(code));
    OneCallMore(service, calls + [Header(code)], Body(text));
  }

  datatype LogEntry = LogEntry(status: nat, bytesSent: nat, sampled: Option<int>)

  /** What the middleware does once the handler is back: an error page, the log entry, and the connection aborted or
      not. The handler may have made any calls at all. */
  method Finish(lrw: LoggingResponseWriter, respErr: Option<Failure>, elapsed: nat)
    returns (entry: LogEntry, aborted: bool)
    requires lrw.Valid()
    modifies lrw, lrw.wire
    ensures lrw.Valid()
    ensures respErr.None? || Committed(lrw.service, old(lrw.calls)) ==>
              lrw.calls == old(lrw.calls) && lrw.wire.status == old(lrw.wire.status)
                && lrw.wire.body == old(lrw.wire.body) && lrw.wire.broken == old(lrw.wire.broken)
    ensures aborted <==> respErr.Some? && Committed(lrw.service, old(lrw.calls))
    ensures respErr.Some? && !aborted && !Slips(lrw.service, old(lrw.calls)) ==>
              && lrw.wire.status == Some(PageStatus(lrw.service, respErr.value.kinds))
              && lrw.wire.body <= PageText(lrw.service, respErr.value)
              && (!lrw.wire.broken ==> lrw.wire.body == PageText(lrw.service, respErr.value))
    ensures old(lrw.wire.broken) ==> lrw.wire.broken
    ensures Slips(lrw.service, lrw.calls) <==> Slips(lrw.service, old(lrw.calls))
    ensures lrw.wire.hints == old(lrw.wire.hints)
    ensures lrw.wire.status.Some? ==> (entry.status == lrw.wire.status.value <==> !Slips(lrw.service, old(lrw.calls)))
    ensures entry.status == lrw.statusCode == Recorded(lrw.service, lrw.calls)
    ensures !Slips(lrw.service, old(lrw.calls)) ==> lrw.wire.superfluous == 0
    ensures entry.bytesSent == |lrw.wire.body|
    ensures entry.sampled.Some? <==> entry.bytesSent > 102400
  {
    var committedByHandler := lrw.wroteHeader;
    if respErr.Some? && !committedByHandler {
      var code, text := PageStatus(lrw.service, respErr.value.kinds), PageText(lrw.service, respErr.value);
      PagesNeverSlip(lrw.service, lrw.calls, code, text);
      lrw.WriteHeader(code);
      var _, _ := lrw.Append(text, elapsed);
    }
    RecordedWhenCommitted(lrw.service, lrw.calls);
    entry := LogEntry(lrw.statusCode, lrw.bytesSent, if lrw.sampleDuration != -1 then Some(lrw.sampleDuration)
      else None);
    aborted := respErr.Some? && committedByHandler;
  }

  /** The whole of a request after its handler: the middleware's part, then net/http's. The logged status is the one the
      client saw exactly when no call was misjudged and somebody - the handler, or the error page - committed to one. */
  method EndRequest(lrw: LoggingResponseWriter, respErr: Option<Failure>, elapsed: nat)
    returns (entry: LogEntry, aborted: bool)
    requires lrw.Valid()
    modifies lrw, lrw.wire
    ensures aborted <==> respErr.Some? && Committed(lrw.service, old(lrw.calls))
    ensures aborted ==> lrw.wire.status == old(lrw.wire.status) && lrw.wire.body == old(lrw.wire.body)
    ensures !aborted ==> lrw.wire.status.Some?
    ensures !aborted ==>
              (entry.status == lrw.wire.status.value <==>
               !Slips(lrw.service, old(lrw.calls)) && (respErr.Some? || Committed(lrw.service, old(lrw.calls))))
    ensures aborted && lrw.wire.status.Some? ==>
        (entry.status == lrw.wire.status.value <==> !Slips(lrw.service, old(lrw.calls)))
    ensures respErr.None? ==>
        lrw.wire.body == old(lrw.wire.body) && entry.status == Recorded(lrw.service, old(lrw.calls))
    ensures respErr.None? && old(lrw.wire.status).Some? ==> lrw.wire.status == old(lrw.wire.status)
    ensures respErr.None? && old(lrw.wire.status).None? ==> lrw.wire.status == Some(OK)
    ensures respErr.Some? && !aborted && !Slips(lrw.service, old(lrw.calls)) ==>
              && lrw.wire.status == Some(PageStatus(lrw.service, respErr.value.kinds))
              && lrw.wire.body <= PageText(lrw.service, respErr.value)
              && (!lrw.wire.broken ==> lrw.wire.body == PageText(lrw.service, respErr.value))
    ensures if respErr.None? then lrw.wire.broken == old(lrw.wire.broken) else old(lrw.wire.broken) ==> lrw.wire.broken
    ensures lrw.wire.hints == old(lrw.wire.hints)
    ensures !Slips(lrw.service, old(lrw.calls)) ==> lrw.wire.superfluous == 0
    ensures entry.bytesSent == |lrw.wire.body|
    ensures entry.sampled.Some? <==> entry.bytesSent > 102400
  {
    entry, aborted := Finish(lrw, respErr, elapsed);
    RecordedWhenCommitted(lrw.service, lrw.calls);
    if !aborted {
      lrw.wire.End();
    }
  }

  /** The nix backend serving an empty file: `io.Copy` makes no call at all, the hint before it does not commit, the
      client sees a 200 and the log says 0. */
  method ServeEmptyFile(hinted: bool, elapsed: nat) returns (wire: Wire, entry: LogEntry)
    ensures fresh(wire) && wire.status == Some(OK) && wire.body == "" && entry.status == 0
  {
    var lrw := new LoggingResponseWriter(Nix);
    if hinted {
      lrw.WriteHeader(103);
    }
    var aborted;
    entry, aborted := EndRequest(lrw, None, elapsed);
    wire := lrw.wire;
  }

  // ------------------------------------------------------------------ the proxy's handler

  /** What one source of a body - the cache, or the upstream directly - turns out to do. */
  datatype Source = Fails(failure: Failure) | Replies(code: Status, chunks: seq<Bytes>, ending: Option<Failure>)

  function Flat(chunks: seq<Bytes>): Bytes {
    if chunks == [] then "" else Flat(chunks[..|chunks| - 1]) + chunks[|chunks| - 1]
  }

  predicate IsBusy(s: Source) {
    s.Fails? && Busy in s.failure.kinds
  }

  /** A cache that has begun to reply is not busy. */
  predicate Honest(s: Source) {
    s.Replies? && s.ending.Some? ==> Busy !in s.ending.value.kinds
  }

  /** What the response looks like after one source has been let at it, and nothing else has. */
  ghost predicate ServedBy(lrw: LoggingResponseWriter, s: Source, err: Option<Failure>)
    reads lrw, lrw.wire
  {
    match s
    case Fails(f) =>
      err == Some(f) && lrw.calls == [] && lrw.wire.body == "" && lrw.wire.status == None && !lrw.wire.broken
    case Replies(code, chunks, ending) =>
      && lrw.calls != [] && lrw.calls[0] == Header(code)
      && lrw.wire.body <= Flat(chunks)
      && (!Informational(code) ==> lrw.wire.hints == [])
      && (err == None ==> lrw.wire.body == Flat(chunks) && ending == None)
      && (err.Some? ==> (err == ending && lrw.wire.body == Flat(chunks)) || err.value.kinds == {Other})
      && (!lrw.wire.broken ==> err == ending && lrw.wire.body == Flat(chunks))
  }

  /** io.Copy: one write after another until one fails. */
  method Copy(lrw: LoggingResponseWriter, chunks: seq<Bytes>, elapsed: nat) returns (failed: bool)
    requires lrw.Valid() && lrw.wroteHeader && lrw.wire.body == "" && !lrw.wire.broken
    requires lrw.calls != []
    modifies lrw, lrw.wire
    ensures lrw.Valid() && lrw.wroteHeader && old(lrw.calls) <= lrw.calls
    ensures lrw.wire.hints == old(lrw.wire.hints)
    ensures lrw.wire.body <= Flat(chunks) && (!failed ==> lrw.wire.body == Flat(chunks))
    ensures failed == lrw.wire.broken
  {
    for i := 0 to |chunks|
      invariant lrw.Valid() && lrw.wroteHeader && old(lrw.calls) <= lrw.calls
      invariant lrw.wire.hints == old(lrw.wire.hints) && !lrw.wire.broken
      invariant lrw.wire.body == Flat(chunks[..i])
    {
      assert chunks[..i + 1][..i] == chunks[..i];
      FlatPrefix(chunks, i + 1);
      var _, stopped := lrw.Append(chunks[i], elapsed);
      if stopped {
        return true;
      }
    }
    assert chunks[..|chunks|] == chunks;
    return false;
  }

  /** The status, then the body until something goes wrong. */
  method Send(lrw: LoggingResponseWriter, s: Source, elapsed: nat) returns (err: Option<Failure>)
    requires lrw.Valid() && lrw.service == Proxy && lrw.calls == [] && !lrw.wire.broken
    modifies lrw, lrw.wire
    ensures lrw.Valid() && ServedBy(lrw, s, err)
  {
    match s {
      case Fails(f) => return Some(f);
      case Replies(code, chunks, ending) =>
        lrw.WriteHeader(code);
        assert lrw.calls[0] == Header(code);
        var failed := Copy(lrw, chunks, elapsed);
        return if failed then Some(Failure({Other}, "copying response body")) else ending;
    }
  }

  lemma {:induction false} FlatPrefix(chunks: seq<Bytes>, i: nat)
    requires i <= |chunks|
    ensures Flat(chunks[..i]) <= Flat(chunks)
  {
    if i == |chunks| {
      assert chunks[..i] == chunks;
    } else {
      var init := chunks[..|chunks| - 1];
      FlatPrefix(init, i);
      assert init[..i] == chunks[..i];
    }
  }

  /** Which source ends up serving: a busy cache steps aside. */
  function Chosen(cache: Option<Source>, upstream: Source): Source {
    if cache.Some? && !IsBusy(cache.value) then cache.value else upstream
  }

  /** Resolve, serve from the cache, or go past a busy one on a response nobody has touched. */
  method ProxyRequest(lrw: LoggingResponseWriter, unresolved: Option<Failure>, cache: Option<Source>, upstream: Source,
          elapsed: nat)
    returns (err: Option<Failure>)
    requires lrw.Valid() && lrw.service == Proxy && lrw.calls == [] && !lrw.wire.broken
    requires cache.Some? ==> Honest(cache.value)
    modifies lrw, lrw.wire
    ensures lrw.Valid()
    ensures unresolved.Some? ==> err == unresolved && lrw.calls == [] && !lrw.wire.broken
    ensures unresolved.None? ==> ServedBy(lrw, Chosen(cache, upstream), err)
  {
    if unresolved.Some? {
      return unresolved;
    }
    if cache.Some? {
      err := Send(lrw, cache.value, elapsed);
      if err.None? || Busy !in err.value.kinds {
        return;
      }
      assert lrw.calls == [] && lrw.wire.status == None;
    }
    err := Send(lrw, upstream, elapsed);
  }

  /** Its status, if it replies, is one that net/http sends as final. */
  predicate FinalStatus(s: Source) {
    s.Replies? ==> !Informational(s.code)
  }

  /** The error that a request has while its client takes everything. */
  function Due(unresolved: Option<Failure>, s: Source): Option<Failure> {
    if unresolved.Some? then unresolved
    else match s
      case Fails(f) => Some(f)
      case Replies(_, _, ending) => ending
  }

  /** A whole request: what the client gets is everything one source had to give under that source's status, or an error
      page alone, or a connection broken off within the body. */
  method ServeHTTP(unresolved: Option<Failure>, cache: Option<Source>, upstream: Source, elapsed: nat)
    returns (wire: Wire, entry: LogEntry, aborted: bool, ghost err: Option<Failure>)
    requires cache.Some? ==> Honest(cache.value)
    ensures fresh(wire) && entry.bytesSent == |wire.body|
    ensures unresolved.Some? ==> err == unresolved && !aborted
    ensures unresolved.None? && Chosen(cache, upstream).Fails? ==>
        err == Some(Chosen(cache, upstream).failure) && !aborted
    ensures err.Some? && !aborted ==>
        wire.status == Some(PageStatus(Proxy, err.value.kinds)) && wire.body <= PageText(Proxy, err.value)
    ensures !wire.broken ==> err == Due(unresolved, Chosen(cache, upstream))
    ensures !wire.broken ==>
              wire.body == if err.Some? && !aborted then PageText(Proxy, err.value)
                else Flat(Chosen(cache, upstream).chunks)
    ensures aborted ==> Chosen(cache, upstream).Replies? && (wire.broken || Chosen(cache, upstream).ending.Some?)
    ensures err.None? || aborted ==>
              unresolved.None? && Chosen(cache, upstream).Replies? && wire.body <= Flat(Chosen(cache, upstream).chunks)
    ensures err.None? ==>
        !aborted && wire.body == Flat(Chosen(cache, upstream).chunks) && Chosen(cache, upstream).ending == None
    ensures FinalStatus(Chosen(cache, upstream)) ==>
              && wire.superfluous == 0 && wire.hints == []
              && wire.status == Some(entry.status)
              && (err.None? || aborted ==> entry.status == Chosen(cache, upstream).code)
  {
    var lrw := new LoggingResponseWriter(Proxy);
    var respErr := ProxyRequest(lrw, unresolved, cache, upstream, elapsed);
    if lrw.calls != [] {
      FirstCallCommits(lrw.calls);
      if FinalStatus(Chosen(cache, upstream)) {
        FirstCallDecides(lrw.calls);
      }
    }
    entry, aborted := EndRequest(lrw, respErr, elapsed);
    wire, err := lrw.wire, respErr;
  }

  lemma FirstCallCommits(calls: seq<Call>)
    requires calls != []
    ensures Committed(Proxy, calls)
  {
    assert Commits(Proxy, calls[0]);
  }

  lemma {:induction false} FirstCallDecides(calls: seq<Call>)
    requires calls != [] && calls[0].Header? && !Informational(calls[0].code)
    ensures Committed(Proxy, calls) && !Slips(Proxy, calls) && Recorded(Proxy, calls) == calls[0].code
  {
    if |calls| == 1 {
      OneCallMore(Proxy, [], calls[0]);
      assert [] + [calls[0]] == calls;
    } else {
      var init := calls[..|calls| - 1];
      FirstCallDecides(init);
      OneCallMore(Proxy, init, calls[|calls| - 1]);
      assert init + [calls[|calls| - 1]] == calls;
    }
  }
}
