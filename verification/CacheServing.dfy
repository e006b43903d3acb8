/** A response of the streaming cache as the source the proxy's handler serves from. */
module CacheServing {
  import opened CacheFollowers
  import opened CacheInvariants
  import opened CacheState
  import opened CacheTheorems
  import opened Options
  import Response

  /** Bytes as the wire's text. */
  function Text(b: Bytes): (r: string)
    ensures |r| == |b|
  {
    seq(|b|, i requires 0 <= i < |b| => (b[i] as int) as char)
  }

  /** What the handler recognises in a cache error. The upstream's own may say that it has nothing, or no sources. */
  function KindsOf(e: Fault, fetched: Response.Error): set<Response.Error> {
    match e
    case Upstream => {fetched}
    case _ => {Response.Other}
  }

  predicate Concluded(at: Spot) {
    at.Ended? || at.TurnedAway?
  }

  /** How a body that ends with this fault, or without one, ends for the handler. */
  predicate EndsWith(ending: Option<Response.Failure>, fault: Option<Fault>, fetched: Response.Error) {
    if fault.None? then ending == None else ending.Some? && ending.value.kinds == KindsOf(fault.value, fetched)
  }

  /** A concluded response is to the handler a source that fails at once, or replies with some status and, in whatever
      chunks, the bytes that were sent. */
  predicate IsSourceOf(source: Response.Source, x: CacheState.Response, fetched: Response.Error)
    requires Concluded(x.at)
  {
    match x.at
    case TurnedAway => source.Fails? && source.failure.kinds == {Response.Busy}
    case Ended(fault) =>
      if x.src == None && fault.Some? then source.Fails? && source.failure.kinds == KindsOf(fault.value, fetched)
      else source.Replies? && Response.Flat(source.chunks) == Text(x.sent) && EndsWith(source.ending, fault, fetched)
    case _ => false
  }

  /** A source read off any run is honest: it reports a busy cache exactly when it was turned away, and
      then nothing has been sent, opened or promised; and when it ends without error it gives the whole
      body of one download of its key. */
  lemma SourceIsHonest(run: seq<State>, i: nat, f: Id, source: Response.Source, fetched: Response.Error)
    requires IsRun(run) && i < |run| && f in run[i].resps && Concluded(run[i].resps[f].at) && fetched != Response.Busy
    requires IsSourceOf(source, run[i].resps[f], fetched)
    ensures var s, x := run[i], run[i].resps[f];
      && Response.Honest(source)
      && (Response.IsBusy(source) <==> x.at.TurnedAway?)
      && (Response.IsBusy(source) ==> x.sent == [] && x.src == None && x.length == None)
      && (source.Fails? ==> x.sent == [])
      && (source.Replies? && source.ending == None ==>
            exists d :: WholeBlob(s, x.key, d) && Response.Flat(source.chunks) == Text(s.bodies[d].bytes))
  {
    WholeOrFaulty(run, i, f);
    if run[i].resps[f].at.TurnedAway? {
      BusyIsUntouched(run, i, f);
    } else {
      UnopenedSentNothing(run, i, f);
    }
  }

  lemma UnopenedSentNothing(run: seq<State>, i: nat, f: Id)
    requires IsRun(run) && i < |run| && f in run[i].resps
    ensures run[i].resps[f].src == None ==> run[i].resps[f].sent == []
    ensures run[i].resps[f].at == Ended(None) ==> run[i].resps[f].src.Some?
  {
    RunKeeps(run, i);
    assert RespOk(run[i], f);
  }

  /** A request through the cache and the handler: without an error the client got, byte for byte, the whole body of one
      download of its key, or, when the cache had no slot, all that the upstream had to give; the error page and the
      broken connection are the only other outcomes. */
  method ServeThroughCache(ghost run: seq<State>, ghost i: nat, ghost f: Id, cache: Response.Source,
          upstream: Response.Source, ghost fetched: Response.Error, elapsed: nat)
    returns (wire: Response.Wire, entry: Response.LogEntry, aborted: bool, ghost err: Option<Response.Failure>)
    requires IsRun(run) && i < |run| && f in run[i].resps && Concluded(run[i].resps[f].at) && fetched != Response.Busy
    requires IsSourceOf(cache, run[i].resps[f], fetched)
    ensures fresh(wire)
    ensures err.None? && !run[i].resps[f].at.TurnedAway? ==>
              exists d :: WholeBlob(run[i], run[i].resps[f].key, d) && wire.body == Text(run[i].bodies[d].bytes)
    ensures err.None? && run[i].resps[f].at.TurnedAway? ==>
        upstream.Replies? && wire.body == Response.Flat(upstream.chunks)
    ensures err.Some? && !aborted ==>
              && wire.status == Some(Response.PageStatus(Response.Proxy, err.value.kinds))
              && wire.body <= Response.PageText(Response.Proxy, err.value)
    ensures err.None? ==> !aborted
    ensures !wire.broken && run[i].resps[f].at == Ended(None) ==> err.None?
    ensures !wire.broken && run[i].resps[f].at.TurnedAway? && upstream.Replies? && upstream.ending.None? ==> err.None?
  {
    SourceIsHonest(run, i, f, cache, fetched);
    wire, entry, aborted, err := Response.ServeHTTP(None, Some(cache), upstream, elapsed);
  }
}
