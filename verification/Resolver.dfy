/** Resolving a build ID: the remembered state, the negative backoff, the fast path and the rules for sources.

    Reading a state is one atomic step here, and the store keeps what it is given. */
module Resolver {
  import opened Options

  /** Nanoseconds, like Go's. */
  const MINUTE := 60_000_000_000
  const HOUR := 60 * MINUTE

  const MAX_FAILURES := 30

  type Headers = string

  datatype Server = Server(name: string, down: bool, sourceAvailable: bool, sourceVia: string)

  datatype Error = NotFound | SourceNotImplemented | TemporaryDown | HostIsDown(name: string) | BadLength | ClientGone
    | TimedOut

  /** What Go returns as a pair; joined errors are a set, no error is the empty one. */
  datatype Answer = Answer(server: Option<Server>, err: set<Error>)

  datatype BuildState = BuildState(lastSuccess: bool, lastHost: string, headers: Headers, counter: nat, updatedAt: int)

  /** How asking every upstream went. */
  datatype Race = Won(host: Server, headers: Headers) | Lost(why: Error)

  /** One run of the resolution: when it began, and what asking the upstreams would bring. */
  datatype Call = Call(now: int, race: Race)

  /** The zero time stands for the start of the calendar. */
  const FRESH := BuildState(false, "", "", 0, 0)

  function Gap(counter: nat): int {
    match counter
    case 1 => 30 * MINUTE
    case 2 => 1 * HOUR
    case 3 => 2 * HOUR
    case _ => 24 * HOUR
  }

  predicate Due(st: BuildState, now: int) {
    !st.lastSuccess && st.counter <= MAX_FAILURES && now - st.updatedAt >= Gap(st.counter)
  }

  /** What is left behind by a resolution. */
  function After(st: BuildState, c: Call): BuildState {
    if !Due(st, c.now) then st
    else match c.race
      case Won(host, headers) => st.(lastSuccess := true, lastHost := host.name, headers := headers, updatedAt := c.now)
      case Lost(_) => st.(counter := st.counter + 1, updatedAt := c.now)
  }

  /** What a resolved build ID is answered with. */
  function Remembered(servers: map<string, Server>, st: BuildState): Answer {
    if st.lastHost !in servers then Answer(None, {NotFound})
    else if servers[st.lastHost].down then Answer(None, {HostIsDown(servers[st.lastHost].name), TemporaryDown})
    else Answer(Some(servers[st.lastHost]), {})
  }

  /** What a resolution answers. */
  function Resolved(servers: map<string, Server>, st: BuildState, c: Call): Answer {
    if st.lastSuccess then Remembered(servers, st)
    else if !Due(st, c.now) then Answer(None, {NotFound})
    else match c.race
      case Won(host, _) => Answer(Some(host), {})
      case Lost(why) => Answer(None, {why})
  }

  // ------------------------------------------------------------------ whole histories

  function AfterAll(st: BuildState, calls: seq<Call>): BuildState {
    if calls == [] then st else After(AfterAll(st, calls[..|calls| - 1]), calls[|calls| - 1])
  }

  /** When the upstreams were really asked. */
  function Rounds(st: BuildState, calls: seq<Call>): seq<int> {
    if calls == [] then []
    else
      var last := |calls| - 1;
      Rounds(st, calls[..last]) + if Due(AfterAll(st, calls[..last]), calls[last].now) then [calls[last].now] else []
  }

  /** Every failed round is counted, and the state remembers when the last round was. */
  lemma {:induction false} RoundsCount(st: BuildState, calls: seq<Call>)
    ensures var s, r := AfterAll(st, calls), Rounds(st, calls);
      && s.counter + (if s.lastSuccess && !st.lastSuccess then 1 else 0) == st.counter + |r|
      && (r != [] ==> s.updatedAt == r[|r| - 1] && (s.lastSuccess || s.counter <= MAX_FAILURES + 1))
      && (r == [] ==> s == st)
      && (st.lastSuccess ==> r == [])
  {
    if calls == [] {
    } else {
      RoundsCount(st, calls[..|calls| - 1]);
    }
  }

  /** However often it is asked for, a build ID causes at most 31 rounds. */
  lemma RoundsAreFew(st: BuildState, calls: seq<Call>)
    ensures |Rounds(st, calls)| <= if st.lastSuccess || st.counter > 30 then 0 else 31 - st.counter
  {
    RoundsCount(st, calls);
    if !st.lastSuccess && st.counter > MAX_FAILURES {
      SpentStays(st, calls);
    }
  }

  lemma {:induction false} SpentStays(st: BuildState, calls: seq<Call>)
    requires !st.lastSuccess && st.counter > MAX_FAILURES
    ensures AfterAll(st, calls) == st && Rounds(st, calls) == []
  {
    if calls == [] {
    } else {
      SpentStays(st, calls[..|calls| - 1]);
    }
  }

  /** After a success nothing is asked again and the host never changes. */
  lemma {:induction false} SuccessAbsorbs(st: BuildState, calls: seq<Call>, more: seq<Call>)
    requires AfterAll(st, calls).lastSuccess
    ensures AfterAll(st, calls + more) == AfterAll(st, calls)
    ensures Rounds(st, calls + more) == Rounds(st, calls)
    decreases |more|
  {
    if more != [] {
      var last := |more| - 1;
      SuccessAbsorbs(st, calls, more[..last]);
      assert (calls + more)[..|calls| + last] == calls + more[..last];
    } else {
      assert calls + more == calls;
    }
  }

  /** How long to wait after so many failures, in nanoseconds: a day before the first round too, counted from the
      start of the calendar. */
  predicate MustWait(counter: nat, wait: int) {
    || (counter == 1 && wait == 1_800_000_000_000)
    || (counter == 2 && wait == 3_600_000_000_000)
    || (counter == 3 && wait == 7_200_000_000_000)
    || ((counter == 0 || counter > 3) && wait == 86_400_000_000_000)
  }

  /** From the i-th round to the next at least the backoff of the failures so far passes. */
  lemma {:induction false} RoundsAreSpaced(st: BuildState, calls: seq<Call>, i: nat, wait: int)
    requires i + 1 < |Rounds(st, calls)| && MustWait(st.counter + i + 1, wait)
    ensures Rounds(st, calls)[i + 1] - Rounds(st, calls)[i] >= wait
  {
    var init := calls[..|calls| - 1];
    if i + 1 < |Rounds(st, init)| {
      RoundsAreSpaced(st, init, i, wait);
    } else {
      RoundsCount(st, init);
    }
  }

  /** Four rounds take three and a half hours, and each one more a day. */
  lemma {:induction false} RoundsTakeTime(calls: seq<Call>, k: nat)
    requires 4 <= k <= |Rounds(FRESH, calls)|
    ensures Rounds(FRESH, calls)[k - 1] - Rounds(FRESH, calls)[0]
         >= 12_600_000_000_000 + 86_400_000_000_000 * (k - 4)
  {
    if k == 4 {
      RoundsAreSpaced(FRESH, calls, 0, 1_800_000_000_000);
      RoundsAreSpaced(FRESH, calls, 1, 3_600_000_000_000);
      RoundsAreSpaced(FRESH, calls, 2, 7_200_000_000_000);
    } else {
      RoundsAreSpaced(FRESH, calls, k - 2, 86_400_000_000_000);
      RoundsTakeTime(calls, k - 1);
    }
  }

  /** When a round takes place: exactly when the build ID is not resolved, has not failed more than 30 times, and the
      time that its failures ask for has passed since the last. */
  lemma RoundTakesPlace(st: BuildState, calls: seq<Call>, c: Call, wait: int)
    requires MustWait(AfterAll(st, calls).counter, wait)
    ensures var s := AfterAll(st, calls);
      Rounds(st, calls + [c]) == Rounds(st, calls)
        + if !s.lastSuccess && s.counter <= 30 && c.now - s.updatedAt >= wait then [c.now] else []
  {
    assert (calls + [c])[..|calls|] == calls;
  }

  /** It is answered with this upstream, whatever is called from now on. */
  ghost predicate ServedBy(servers: map<string, Server>, st: BuildState, host: Server) {
    forall more, c :: Resolved(servers, AfterAll(st, more), c) == Answer(Some(host), {})
  }

  lemma {:induction false} SuccessStays(st: BuildState, more: seq<Call>)
    requires st.lastSuccess
    ensures AfterAll(st, more) == st
  {
    if more == [] {
    } else {
      SuccessStays(st, more[..|more| - 1]);
    }
  }

  /** A round that is won answers with the winner, and so does every later call. */
  lemma WinnerServes(servers: map<string, Server>, st: BuildState, c: Call)
    requires Due(st, c.now) && FairRace(servers, c.race) && c.race.Won?
    ensures Resolved(servers, st, c) == Answer(Some(c.race.host), {})
    ensures ServedBy(servers, After(st, c), c.race.host)
    ensures After(st, c).headers == c.race.headers && After(st, c).updatedAt == c.now
  {
    forall more, c' ensures Resolved(servers, AfterAll(After(st, c), more), c') == Answer(Some(c.race.host), {}) {
      SuccessStays(After(st, c), more);
    }
  }

  lemma ServedIsResolved(servers: map<string, Server>, st: BuildState, host: Server)
    requires ServedBy(servers, st, host)
    ensures st.lastSuccess && Remembered(servers, st) == Answer(Some(host), {})
  {
    var now := Call(st.updatedAt, Lost(NotFound));
    assert AfterAll(st, []) == st && Gap(st.counter) > 0;
    assert Resolved(servers, AfterAll(st, []), now) == Answer(Some(host), {});
  }

  /** A lost one is answered with its reason, and counted. */
  lemma LoserIsCounted(servers: map<string, Server>, st: BuildState, c: Call)
    requires Due(st, c.now) && c.race.Lost?
    ensures Resolved(servers, st, c) == Answer(None, {c.race.why})
    ensures After(st, c) == st.(counter := st.counter + 1, updatedAt := c.now)
  {
  }

  /** What is answered without asking anybody: a resolved build ID by its upstream while that one is configured and up,
      and not-found while it has to wait, or has failed too often. Nothing is remembered of either. */
  lemma AnswersWithoutAsking(servers: map<string, Server>, st: BuildState, more: seq<Call>, c: Call, wait: int)
    ensures st.lastSuccess ==>
        var a := Resolved(servers, AfterAll(st, more), c);
        && (a.err == {} <==> st.lastHost in servers && !servers[st.lastHost].down)
        && (a.err == {} ==> a.server == Some(servers[st.lastHost]))
        && (st.lastHost !in servers ==> a.err == {NotFound})
        && (st.lastHost in servers && a.err != {} ==> TemporaryDown in a.err && NotFound !in a.err)
    ensures !st.lastSuccess && MustWait(st.counter, wait) && (st.counter > 30 || c.now < st.updatedAt + wait) ==>
        Resolved(servers, st, c) == Answer(None, {NotFound}) && After(st, c) == st
  {
    if st.lastSuccess {
      SuccessStays(st, more);
    }
  }

  // ------------------------------------------------------------------ sources

  function ApplySourceRules(delegates: map<string, Server>, endpoint: string, a: Answer): Answer
    requires a.err == {} ==> a.server.Some?
  {
    if endpoint != "source" then a
    else if NotFound in a.err then a.(err := {SourceNotImplemented} + a.err)
    else if a.err == {} && !a.server.value.sourceAvailable then
      if a.server.value.sourceVia in delegates && !delegates[a.server.value.sourceVia].down
      then Answer(Some(delegates[a.server.value.sourceVia]), {})
      else Answer(a.server, {SourceNotImplemented})
    else a
  }

  /** A source request is answered without error exactly when the resolving upstream has sources or names a delegate
      that is up, and then by a server of which that is true; and a build ID nobody has stays one nobody has. */
  lemma SourceRulesAreSound(delegates: map<string, Server>, endpoint: string, a: Answer)
    requires a.err == {} ==> a.server.Some?
    ensures var r := ApplySourceRules(delegates, endpoint, a);
      && (r.err == {} ==> a.err == {} && r.server.Some?)
      && (NotFound in r.err <==> NotFound in a.err)
      && (endpoint != "source" ==> r == a)
      && (a.err != {} ==> r.server == a.server && a.err <= r.err <= a.err + {SourceNotImplemented})
      && (endpoint == "source" && NotFound in a.err ==> SourceNotImplemented in r.err)
      && (a.err == {} && r.err != {} ==> r == Answer(a.server, {SourceNotImplemented}))
      && (endpoint == "source" && a.err == {} ==>
            (r.err == {} <==> (a.server.value.sourceAvailable
               || (a.server.value.sourceVia in delegates && !delegates[a.server.value.sourceVia].down))))
      && (r.err == {} && r.server != a.server ==>
            && endpoint == "source" && !a.server.value.sourceAvailable && !r.server.value.down
            && a.server.value.sourceVia in delegates && r.server.value == delegates[a.server.value.sourceVia])
  {
    assert SourceNotImplemented in {SourceNotImplemented} + a.err;
  }

  // ------------------------------------------------------------------ the finder

  function StateOf(states: map<string, BuildState>, id: string): BuildState {
    if id in states then states[id] else FRESH
  }

  function CallsOf(calls: map<string, seq<Call>>, id: string): seq<Call> {
    if id in calls then calls[id] else []
  }

  lemma CallsAreFolded(before: seq<Call>, st: BuildState, others: seq<Call>)
    requires others != []
    ensures var last := |others| - 1;
      && before + others[..last] + [others[last]] == before + others
      && AfterAll(st, others) == After(AfterAll(st, others[..last]), Call(others[last].now, others[last].race))
  {
  }

  predicate FairRace(servers: map<string, Server>, race: Race) {
    match race
    case Won(host, _) => host.name in servers && servers[host.name] == host && !host.down
    case Lost(why) => why == NotFound || why == TimedOut
  }

  /** A request that is waiting: what it asks for, and whether its client leaves before the answer is there. */
  datatype Request = Request(endpoint: string, gone: bool)

  class Finder {
    const servers: map<string, Server>
    const delegates: map<string, Server>
    const rows: map<string, BuildState>
    var states: map<string, BuildState>
    ghost var calls: map<string, seq<Call>>

    /** What is remembered of every build ID is what its calls, folded over the row the database had, leave behind. */
    ghost predicate Valid()
      reads this
    {
      forall id :: StateOf(states, id) == AfterAll(StateOf(rows, id), CallsOf(calls, id))
    }

    constructor (servers: map<string, Server>, delegates: map<string, Server>, rows: map<string, BuildState>)
      ensures Valid() && calls == map[]
      ensures this.servers == servers && this.delegates == delegates && this.rows == rows
    {
      this.servers, this.delegates, this.rows := servers, delegates, rows;
      states := rows;
      calls := map[];
    }

    /** A copy of what is remembered; a build ID never seen before gets a fresh state. */
    method GetState(id: string) returns (st: BuildState)
      modifies this`states
      ensures st == StateOf(old(states), id)
      ensures forall other :: StateOf(states, other) == StateOf(old(states), other)
    {
      if id !in states {
        states := states[id := FRESH];
      }
      st := states[id];
    }

    method UpdateState(id: string, st: BuildState)
      modifies this`states
      ensures states == old(states)[id := st]
    {
      states := states[id := st];
    }

    /** The resolution, which only one caller at a time runs for a build ID. */
    method BgFind(id: string, now: int, race: Race) returns (a: Answer)
      requires Valid() && FairRace(servers, race)
      modifies this
      ensures Valid()
      ensures calls == old(calls)[id := CallsOf(old(calls), id) + [Call(now, race)]]
      ensures StateOf(states, id) == After(StateOf(old(states), id), Call(now, race))
      ensures a == Resolved(servers, StateOf(old(states), id), Call(now, race))
      ensures a.err == {} ==> a.server.Some?
      ensures Due(StateOf(old(states), id), now) && race.Won? ==>
                a == Answer(Some(race.host), {}) && ServedBy(servers, StateOf(states, id), race.host)
    {
      ghost var c := Call(now, race);
      ghost var was := states;
      var st := GetState(id);
      a := Answer(None, {NotFound});
      if st.lastSuccess {
        if st.lastHost in servers {
          var host := servers[st.lastHost];
          a := if host.down then Answer(None, {HostIsDown(host.name), TemporaryDown}) else Answer(Some(host), {});
        }
      } else if st.counter <= MAX_FAILURES {
        var elapsed := now - st.updatedAt;
        var early;
        match st.counter {
          case 1 => early := elapsed < 30 * MINUTE;
          case 2 => early := elapsed < 1 * HOUR;
          case 3 => early := elapsed < 2 * HOUR;
          case _ => early := elapsed < 24 * HOUR;
        }
        if !early {
          st := st.(updatedAt := now);
          match race {
            case Lost(why) =>
              st := st.(lastSuccess := false, counter := st.counter + 1);
              a := Answer(None, {why});
            case Won(host, headers) =>
              st := st.(lastSuccess := true, lastHost := host.name, headers := headers);
              a := Answer(Some(host), {});
          }
          UpdateState(id, st);
        }
      }
      assert StateOf(states, id) == After(StateOf(was, id), c);
      if Due(StateOf(was, id), now) && race.Won? {
        WinnerServes(servers, StateOf(was, id), c);
      }
      Record(id, c, was);
    }

    ghost method Record(id: string, c: Call, was: map<string, BuildState>)
      requires forall other :: StateOf(was, other) == AfterAll(StateOf(rows, other), CallsOf(calls, other))
      requires StateOf(states, id) == After(StateOf(was, id), c)
      requires forall other :: other != id ==> StateOf(states, other) == StateOf(was, other)
      modifies this`calls
      ensures Valid() && calls == old(calls)[id := CallsOf(old(calls), id) + [c]]
    {
      var mine := CallsOf(calls, id);
      assert (mine + [c])[..|mine|] == mine;
      calls := calls[id := mine + [c]];
    }

    /** A request. `others` are resolutions of the same build ID that get in between its look at the state and its own
        turn; `gone` says that the client leaves before its answer is there. */
    method FindByBuildID(id: string, endpoint: string, now: int, race: Race, others: seq<Call>, gone: bool)
      returns (a: Answer)
      requires Valid() && FairRace(servers, race)
      requires forall i :: 0 <= i < |others| ==> FairRace(servers, others[i].race)
      modifies this
      ensures Valid()
      ensures !(32 <= |id| <= 64) ==> a == Answer(None, {BadLength})
      ensures !(32 <= |id| <= 64) || StateOf(old(states), id).lastSuccess ==> calls == old(calls)
      ensures 32 <= |id| <= 64 && StateOf(old(states), id).lastSuccess ==>
                forall c :: a == ApplySourceRules(delegates, endpoint, Resolved(servers, StateOf(old(states), id), c))
      ensures 32 <= |id| <= 64 && !StateOf(old(states), id).lastSuccess ==>
                && calls == old(calls)[id := CallsOf(old(calls), id) + others + [Call(now, race)]]
                && a == if gone then Answer(None, {ClientGone})
                        else SlowAnswer(AfterAll(StateOf(old(states), id), others), endpoint, Call(now, race))
      ensures forall host :: 32 <= |id| <= 64 && ServedBy(servers, StateOf(old(states), id), host) ==>
                a == ApplySourceRules(delegates, endpoint, Answer(Some(host), {}))
                && ServedBy(servers, StateOf(states, id), host)
    {
      if |id| > 64 || |id| < 32 {
        return Answer(None, {BadLength});
      }
      var st := GetState(id);
      forall host | ServedBy(servers, st, host)
        ensures st.lastSuccess && Remembered(servers, st) == Answer(Some(host), {}) {
        ServedIsResolved(servers, st, host);
      }
      if st.lastSuccess {
        if st.lastHost !in servers {
          return ApplySourceRules(delegates, endpoint, Answer(None, {NotFound}));
        }
        var host := servers[st.lastHost];
        if host.down {
          return Answer(None, {HostIsDown(host.name), TemporaryDown});
        }
        return ApplySourceRules(delegates, endpoint, Answer(Some(host), {}));
      }
      var bg := Flight(id, now, race, others);
      if gone {
        return Answer(None, {ClientGone});
      }
      a := ApplySourceRules(delegates, endpoint, bg);
    }

    /** Requests that wait for one resolution: each started when the build ID was not resolved, and they
        share its answer, whatever their endpoints. One call is made for all of them, and each gets what
        it would have got alone. */
    method FindTogether(id: string, requests: seq<Request>, now: int, race: Race, others: seq<Call>)
      returns (answers: seq<Answer>)
      requires Valid() && FairRace(servers, race) && 32 <= |id| <= 64
      requires !StateOf(states, id).lastSuccess
      requires forall i :: 0 <= i < |others| ==> FairRace(servers, others[i].race)
      modifies this
      ensures Valid()
      ensures calls == old(calls)[id := CallsOf(old(calls), id) + others + [Call(now, race)]]
      ensures |answers| == |requests|
      ensures forall i :: 0 <= i < |requests| ==>
                answers[i] == if requests[i].gone then Answer(None, {ClientGone})
                              else SlowAnswer(AfterAll(StateOf(old(states), id), others), requests[i].endpoint,
                                     Call(now, race))
    {
      var bg := Flight(id, now, race, others);
      answers := Share(bg, requests);
    }

    /** One resolution behind those of the callers queued before it. */
    method Flight(id: string, now: int, race: Race, others: seq<Call>) returns (bg: Answer)
      requires Valid() && FairRace(servers, race)
      requires forall i :: 0 <= i < |others| ==> FairRace(servers, others[i].race)
      modifies this
      ensures Valid() && (bg.err == {} ==> bg.server.Some?)
      ensures calls == old(calls)[id := CallsOf(old(calls), id) + others + [Call(now, race)]]
      ensures bg == Resolved(servers, AfterAll(StateOf(old(states), id), others), Call(now, race))
    {
      Overtake(id, others);
      ghost var mid := calls;
      bg := BgFind(id, now, race);
      assert calls == old(calls)[id := CallsOf(mid, id) + [Call(now, race)]];
    }

    /** Every request applies the rules of its own endpoint to the answer. */
    method Share(bg: Answer, requests: seq<Request>) returns (answers: seq<Answer>)
      requires bg.err == {} ==> bg.server.Some?
      ensures |answers| == |requests|
      ensures forall i :: 0 <= i < |requests| ==>
                answers[i] == if requests[i].gone then Answer(None, {ClientGone})
                              else ApplySourceRules(delegates, requests[i].endpoint, bg)
    {
      answers := [];
      for i := 0 to |requests|
        invariant |answers| == i
        invariant forall j :: 0 <= j < i ==>
                    answers[j] == if requests[j].gone then Answer(None, {ClientGone})
                                  else ApplySourceRules(delegates, requests[j].endpoint, bg)
      {
        var mine := if requests[i].gone then Answer(None, {ClientGone})
                    else ApplySourceRules(delegates, requests[i].endpoint, bg);
        answers := answers + [mine];
      }
    }

    /** Other callers' resolutions, one after the other. */
    method Overtake(id: string, others: seq<Call>)
      requires Valid()
      requires forall i :: 0 <= i < |others| ==> FairRace(servers, others[i].race)
      modifies this
      ensures Valid()
      ensures CallsOf(calls, id) == CallsOf(old(calls), id) + others
      ensures calls == old(calls) || calls == old(calls)[id := CallsOf(calls, id)]
      ensures StateOf(states, id) == AfterAll(StateOf(old(states), id), others)
      decreases |others|
    {
      if others == [] {
        assert CallsOf(calls, id) + [] == CallsOf(calls, id);
        return;
      }
      var last := |others| - 1;
      Overtake(id, others[..last]);
      CallsAreFolded(CallsOf(old(calls), id), StateOf(old(states), id), others);
      var _ := BgFind(id, others[last].now, others[last].race);
    }

    ghost function SlowAnswer(st: BuildState, endpoint: string, c: Call): Answer
      requires FairRace(servers, c.race)
    {
      ApplySourceRules(delegates, endpoint, Resolved(servers, st, c))
    }
  }
}
