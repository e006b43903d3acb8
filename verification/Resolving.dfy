/** The resolver and the race together: what asking every upstream brings is what a run of the race ended with. */
module Resolving {
  import opened Options
  import ProbeRace
  import opened Resolver

  /** The finder's upstreams in the order in which one race went through them, each once. */
  ghost predicate Enumerates(order: seq<Server>, servers: map<string, Server>) {
    && (forall k :: 0 <= k < |order| ==> order[k].name in servers && servers[order[k].name] == order[k])
    && (forall n :: n in servers ==> servers[n] in order)
    && (forall j, k :: 0 <= j < k < |order| ==> order[j] != order[k])
  }

  function Asked(order: seq<Server>): seq<ProbeRace.Server> {
    seq(|order|, k requires 0 <= k < |order| => ProbeRace.Server(order[k].name, order[k].down))
  }

  /** A race over these upstreams that has returned. */
  ghost predicate Ran(run: seq<ProbeRace.State>, i: nat, order: seq<Server>, servers: map<string, Server>) {
    && ProbeRace.IsRun(run) && i < |run| && run[i].caller.Returned?
    && Enumerates(order, servers) && run[0].servers == Asked(order)
  }

  /** What `tryAllServers` returns to the resolver: a server with headers, or one of two errors. */
  function RaceOf(order: seq<Server>, answer: ProbeRace.Answer): Race
    requires answer.Won? ==> answer.server < |order|
  {
    match answer
    case Won(k, headers) => Race.Won(order[k], headers)
    case NotFound => Lost(Error.NotFound)
    case ContextDone => Lost(TimedOut)
  }

  lemma WinnerIsListed(run: seq<ProbeRace.State>, i: nat, order: seq<Server>, servers: map<string, Server>)
    requires Ran(run, i, order, servers)
    ensures run[i].caller.answer.Won? ==> run[i].caller.answer.server < |order|
  {
    if run[i].caller.answer.Won? {
      ProbeRace.WinnerBringsItsOwnHeaders(run, i);
    }
  }

  /** What the race brought for one upstream: nothing, asked though it was up. */
  ghost predicate AskedInVain(s: ProbeRace.State, order: seq<Server>, server: Server) {
    |s.probes| == |order| && exists k :: 0 <= k < |order| && order[k] == server && ProbeRace.Failed(s.probes[k])
  }

  /** This upstream was asked, had it, and these are its headers. */
  ghost predicate HadIt(s: ProbeRace.State, order: seq<Server>, server: Server, headers: Headers) {
    && |s.probes| == |order|
    && exists k :: 0 <= k < |order| && order[k] == server
                   && ProbeRace.Offered(s.probes[k]) && s.probes[k].o == ProbeRace.Found(headers)
  }

  /** Every race ends the way the resolver relies on: a winner is one of its upstreams, up, with the headers it sent
      itself; nobody-has-it means that every upstream that is up was asked and failed. */
  lemma RaceIsFair(run: seq<ProbeRace.State>, i: nat, order: seq<Server>, servers: map<string, Server>)
    requires Ran(run, i, order, servers)
    ensures run[i].caller.answer.Won? ==> run[i].caller.answer.server < |order|
    ensures var race := RaceOf(order, run[i].caller.answer);
      && FairRace(servers, race)
      && (race.Won? ==> HadIt(run[i], order, race.host, race.headers))
      && (race == Lost(Error.NotFound) ==>
            forall n :: n in servers && !servers[n].down ==> AskedInVain(run[i], order, servers[n]))
  {
    WinnerIsListed(run, i, order, servers);
    if run[i].caller.answer.Won? {
      ProbeRace.WinnerBringsItsOwnHeaders(run, i);
    } else if run[i].caller.answer.NotFound? {
      ProbeRace.NotFoundMeansNobodyHasIt(run, i);
      forall n | n in servers && !servers[n].down ensures AskedInVain(run[i], order, servers[n]) {
        var k :| 0 <= k < |order| && order[k] == servers[n];
        assert ProbeRace.Failed(run[i].probes[k]);
      }
    }
  }

  /** A resolution whose race is a run: a build ID newly resolved is one that an upstream had when asked, remembered
      with that upstream's own headers; and one newly not found is one that no upstream that is up had. */
  method ResolveByRace(finder: Finder, id: string, now: int, order: seq<Server>, answer: ProbeRace.Answer,
          ghost run: seq<ProbeRace.State>, ghost i: nat)
    returns (a: Answer)
    requires finder.Valid() && Ran(run, i, order, finder.servers) && run[i].caller.answer == answer
    requires answer.Won? ==> answer.server < |order|
    modifies finder
    ensures finder.Valid()
    ensures var st, race := StateOf(old(finder.states), id), RaceOf(order, answer);
      && StateOf(finder.states, id) == After(st, Call(now, race))
      && a == Resolved(finder.servers, st, Call(now, race))
    ensures Due(StateOf(old(finder.states), id), now) && a.err == {} ==>
              a.server.Some? && HadIt(run[i], order, a.server.value, StateOf(finder.states, id).headers)
    ensures Due(StateOf(old(finder.states), id), now) && Error.NotFound in a.err ==>
              forall n :: n in finder.servers && !finder.servers[n].down ==>
                AskedInVain(run[i], order, finder.servers[n])
  {
    RaceIsFair(run, i, order, finder.servers);
    a := finder.BgFind(id, now, RaceOf(order, answer));
  }
}
