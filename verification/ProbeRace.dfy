/** Asking every upstream at once: probes, a channel of capacity one, the goroutine that closes it, and
    the caller's select.

    A step is one statement that another goroutine can observe. The probes themselves end whenever they like. */
module ProbeRace {
  import opened Options

  type Headers = string

  datatype Server = Server(name: string, down: bool)

  /** How a probe ended. `Aborted` is the error of a cancelled context. */
  datatype Outcome = Found(headers: Headers) | Refused | Aborted

  datatype Probe =
    | Idle                    // not launched
    | Skipped                 // its server is marked Down
    | Probing
    | Logging(o: Outcome)     // about to append its log entry
    | Sending(o: Outcome)     // about to offer its result
    | Cancelling(o: Outcome)  // its result was taken; about to cancel the others
    | Exiting(o: Outcome)     // about to leave the wait group
    | Gone(o: Outcome)

  datatype Answer = Won(server: nat, headers: Headers) | NotFound | ContextDone

  datatype Caller = Launching(k: nat) | Selecting | Returned(answer: Answer)

  datatype Closer = Unborn | Awaiting | Closed | Flushed

  datatype Entry = Entry(server: nat, success: bool)

  /** `wg` is the wait group's counter, `buf` and `closed` the channel, `cancelled` the probes' context, `ctxDone` the
      caller's. `panicked` records a send on, or a close of, a closed channel. */
  datatype State = State(
    servers: seq<Server>, probes: seq<Probe>, wg: int,
    buf: Option<(nat, Headers)>, closed: bool, panicked: bool,
    cancelled: bool, ctxDone: bool,
    entries: seq<Entry>, logged: Option<seq<Entry>>,
    caller: Caller, closer: Closer)

  predicate Init(s: State) {
    && |s.probes| == |s.servers| && (forall k :: 0 <= k < |s.probes| ==> s.probes[k] == Idle)
    && s.wg == 0 && s.buf == None && !s.closed && !s.panicked && !s.cancelled && !s.ctxDone
    && s.entries == [] && s.logged == None && s.caller == Launching(0) && s.closer == Unborn
  }

  // ------------------------------------------------------------------ the steps

  function Move(s: State, k: nat, p: Probe): State
    requires k < |s.probes|
  {
    s.(probes := s.probes[k := p])
  }

  predicate Launch(s: State, s': State) {
    && s.caller.Launching? && s.caller.k < |s.servers| == |s.probes|
    && var k := s.caller.k;
      s' == (if s.servers[k].down then Move(s, k, Skipped) else Move(s, k, Probing).(wg := s.wg + 1))
              .(caller := Launching(k + 1))
  }

  predicate Select(s: State, s': State) {
    && s.caller == Launching(|s.servers|)
    && s' == s.(caller := Selecting, closer := Awaiting)
  }

  predicate ProbeEnds(s: State, s': State, k: nat, o: Outcome) {
    && k < |s.probes| && s.probes[k] == Probing && (o == Aborted ==> s.cancelled)
    && s' == Move(s, k, Logging(o))
  }

  predicate Log(s: State, s': State, k: nat) {
    && k < |s.probes| && s.probes[k].Logging?
    && var o := s.probes[k].o;
      s' == Move(s, k, if o.Found? then Sending(o) else Exiting(o)).(entries := s.entries + [Entry(k, o.Found?)])
  }

  /** A send that does not block: it takes the free slot or gives up. */
  predicate Send(s: State, s': State, k: nat) {
    && k < |s.probes| && s.probes[k].Sending? && s.probes[k].o.Found?
    && var o := s.probes[k].o;
      if s.closed then s' == s.(panicked := true)
      else if s.buf == None then s' == Move(s, k, Cancelling(o)).(buf := Some((k, o.headers)))
      else s' == Move(s, k, Exiting(o))
  }

  predicate CancelFind(s: State, s': State, k: nat) {
    && k < |s.probes| && s.probes[k].Cancelling?
    && s' == Move(s, k, Exiting(s.probes[k].o)).(cancelled := true)
  }

  predicate Leave(s: State, s': State, k: nat) {
    && k < |s.probes| && s.probes[k].Exiting?
    && s' == Move(s, k, Gone(s.probes[k].o)).(wg := s.wg - 1)
  }

  predicate Close(s: State, s': State) {
    && s.closer == Awaiting && s.wg == 0
    && s' == s.(closed := true, panicked := s.panicked || s.closed, closer := Closed)
  }

  predicate Flush(s: State, s': State) {
    && s.closer == Closed
    && s' == s.(logged := Some(s.entries), closer := Flushed)
  }

  /** Returning runs the deferred cancellation. */
  function Return(s: State, a: Answer): State {
    s.(caller := Returned(a), cancelled := true)
  }

  predicate Receive(s: State, s': State) {
    && s.caller == Selecting && s.buf.Some?
    && s' == Return(s, Won(s.buf.value.0, s.buf.value.1)).(buf := None)
  }

  predicate ReceiveClosed(s: State, s': State) {
    s.caller == Selecting && s.buf == None && s.closed && s' == Return(s, NotFound)
  }

  predicate GiveUp(s: State, s': State) {
    s.caller == Selecting && s.ctxDone && s' == Return(s, ContextDone)
  }

  /** The caller's context ends, and with it the one derived from it. */
  predicate ContextEnds(s: State, s': State) {
    !s.ctxDone && s' == s.(ctxDone := true, cancelled := true)
  }

  datatype Step =
    | DoLaunch | DoSelect | DoProbe(k: nat, o: Outcome) | DoLog(k: nat) | DoSend(k: nat) | DoCancel(k: nat)
      | DoLeave(k: nat)
    | DoClose | DoFlush | DoReceive | DoReceiveClosed | DoGiveUp | DoContext

  predicate Next(s: State, s': State, a: Step) {
    match a
    case DoLaunch => Launch(s, s')
    case DoSelect => Select(s, s')
    case DoProbe(k, o) => ProbeEnds(s, s', k, o)
    case DoLog(k) => Log(s, s', k)
    case DoSend(k) => Send(s, s', k)
    case DoCancel(k) => CancelFind(s, s', k)
    case DoLeave(k) => Leave(s, s', k)
    case DoClose => Close(s, s')
    case DoFlush => Flush(s, s')
    case DoReceive => Receive(s, s')
    case DoReceiveClosed => ReceiveClosed(s, s')
    case DoGiveUp => GiveUp(s, s')
    case DoContext => ContextEnds(s, s')
  }

  ghost predicate CanStep(s: State, s': State) {
    exists a :: Next(s, s', a)
  }

  ghost predicate StepAt(run: seq<State>, i: nat)
    requires i + 1 < |run|
  {
    CanStep(run[i], run[i + 1])
  }

  ghost predicate IsRun(run: seq<State>) {
    |run| > 0 && Init(run[0]) && forall i :: 0 <= i < |run| - 1 ==> StepAt(run, i)
  }

  // ------------------------------------------------------------------ the invariant

  predicate Running(p: Probe) {
    !p.Idle? && !p.Skipped? && !p.Gone?
  }

  function Count(probes: seq<Probe>): nat {
    if probes == [] then 0
    else (if Running(probes[0]) then 1 else 0) + Count(probes[1..])
  }

  lemma {:induction false} CountUpdate(probes: seq<Probe>, k: nat, p: Probe)
    requires k < |probes|
    ensures Count(probes[k := p]) == Count(probes) - (if Running(probes[k]) then 1 else 0)
        + (if Running(p) then 1 else 0)
  {
    var q := probes[k := p];
    if k == 0 {
      assert q[1..] == probes[1..];
    } else {
      assert q[1..] == probes[1..][k - 1 := p];
      CountUpdate(probes[1..], k - 1, p);
    }
  }

  lemma {:induction false} CountZero(probes: seq<Probe>, k: nat)
    requires Count(probes) == 0 && k < |probes|
    ensures !Running(probes[k])
  {
    if k == 0 {
    } else {
      CountZero(probes[1..], k - 1);
    }
  }

  predicate Logged(p: Probe) {
    p.Sending? || p.Cancelling? || p.Exiting? || p.Gone?
  }

  /** Its result has been offered: taken, or turned down because another one was there. */
  predicate Offered(p: Probe) {
    (p.Cancelling? || p.Exiting? || p.Gone?) && p.o.Found?
  }

  /** Where a probe may be, given how far the caller has launched. */
  predicate ProbeFits(s: State, k: nat)
    requires k < |s.probes| == |s.servers|
  {
    var p := s.probes[k];
    && (p.Idle? <==> s.caller.Launching? && s.caller.k <= k)
    && (!p.Idle? ==> (p.Skipped? <==> s.servers[k].down))
    && (p.Sending? || p.Cancelling? ==> p.o.Found?)
    && (Logged(p) || p.Logging? ==> (p.o.Aborted? ==> s.cancelled))
    && (s.closed ==> !Running(p))
    && (Offered(p) ==> s.buf.Some? || s.caller.Returned?)
  }

  predicate Shape(s: State) {
    && |s.probes| == |s.servers| && !s.panicked
    && (s.caller.Launching? ==> s.caller.k <= |s.servers|)
    && (s.closer.Unborn? <==> s.caller.Launching?)
    && (s.closed <==> s.closer.Closed? || s.closer.Flushed?)
    && s.wg == Count(s.probes)
  }

  /** Whoever is in the channel, or won, has succeeded with just those headers. */
  predicate Holder(s: State, k: nat, h: Headers) {
    k < |s.probes| && Offered(s.probes[k]) && s.probes[k].o == Found(h)
  }

  ghost predicate Winners(s: State) {
    && (s.buf.Some? ==> Holder(s, s.buf.value.0, s.buf.value.1))
    && (s.caller.Returned? && s.caller.answer.Won? ==> Holder(s, s.caller.answer.server, s.caller.answer.headers))
  }

  /** Before anything is offered and before the caller leaves, only the caller's own context can have
      cancelled the probes. */
  ghost predicate NotCancelledYet(s: State) {
    !s.caller.Returned? && !s.ctxDone && s.cancelled ==> exists k :: 0 <= k < |s.probes| && Offered(s.probes[k])
  }

  /** Exactly one entry per probe that has logged, telling how that probe ended. */
  ghost predicate EntriesFit(s: State) {
    && (forall i, j :: 0 <= i < j < |s.entries| ==> s.entries[i].server != s.entries[j].server)
    && (forall i :: 0 <= i < |s.entries| ==> EntryFits(s, s.entries[i]))
    && (forall k :: 0 <= k < |s.probes| && Logged(s.probes[k]) ==> Entry(k, s.probes[k].o.Found?) in s.entries)
    && (s.logged.Some? ==> s.closed && s.logged.value == s.entries)
  }

  predicate EntryFits(s: State, e: Entry) {
    e.server < |s.probes| && Logged(s.probes[e.server]) && e.success == s.probes[e.server].o.Found?
  }

  predicate Failed(p: Probe) {
    p.Gone? && !p.o.Found?
  }

  /** A not-found answer was given with every upstream asked and none of them having it. */
  ghost predicate AnswerFits(s: State) {
    s.caller == Returned(NotFound) ==>
        s.closed && forall k :: 0 <= k < |s.servers| == |s.probes| && !s.servers[k].down ==> Failed(s.probes[k])
  }

  ghost predicate AllFit(s: State) {
    |s.probes| == |s.servers| && forall k :: 0 <= k < |s.probes| ==> ProbeFits(s, k)
  }

  ghost predicate Inv(s: State) {
    Shape(s) && AllFit(s) && Winners(s) && NotCancelledYet(s) && EntriesFit(s) && AnswerFits(s)
  }

  lemma InitHolds(s: State)
    requires Init(s)
    ensures Inv(s)
  {
    CountIdle(s.probes);
  }

  lemma {:induction false} CountIdle(probes: seq<Probe>)
    requires forall k :: 0 <= k < |probes| ==> probes[k] == Idle
    ensures Count(probes) == 0
  {
    if probes == [] {
    } else {
      CountIdle(probes[1..]);
    }
  }

  lemma CallerKeeps(s: State, s': State, a: Step)
    requires Inv(s) && Next(s, s', a) && (a.DoLaunch? || a.DoSelect?)
    ensures Inv(s')
  {
    if a.DoLaunch? {
      var k := s.caller.k;
      CountUpdate(s.probes, k, if s.servers[k].down then Skipped else Probing);
      assert ProbeFits(s, k);
      forall j | 0 <= j < |s'.probes| ensures ProbeFits(s', j) {
        assert ProbeFits(s, j);
      }
      KeepOffers(s, s', k);
    } else {
      forall j | 0 <= j < |s'.probes| ensures ProbeFits(s', j) {
        assert ProbeFits(s, j);
      }
    }
  }

  /** Offers and entries of the others are untouched when a probe that has neither moves. */
  lemma KeepOffers(s: State, s': State, k: nat)
    requires |s.probes| == |s'.probes| && k < |s.probes|
    requires forall j :: 0 <= j < |s.probes| && j != k ==> s'.probes[j] == s.probes[j]
    requires !Logged(s.probes[k])
    ensures forall j :: 0 <= j < |s.probes| && Offered(s.probes[j]) ==>
        Offered(s'.probes[j]) && s'.probes[j] == s.probes[j]
    ensures forall e :: EntryFits(s, e) ==> EntryFits(s', e)
  {
  }

  lemma ProbeKeeps(s: State, s': State, a: Step)
    requires Inv(s) && Next(s, s', a) && a.DoProbe?
    ensures Inv(s')
  {
    assert ProbeFits(s, a.k);
    CountUpdate(s.probes, a.k, Logging(a.o));
    KeepOffers(s, s', a.k);
    forall j | 0 <= j < |s'.probes| ensures ProbeFits(s', j) {
      assert ProbeFits(s, j);
    }
  }

  lemma LogKeeps(s: State, s': State, a: Step)
    requires Inv(s) && Next(s, s', a) && a.DoLog?
    ensures Inv(s')
  {
    assert ProbeFits(s, a.k);
    CountUpdate(s.probes, a.k, s'.probes[a.k]);
    KeepOffers(s, s', a.k);
    forall j | 0 <= j < |s'.probes| ensures ProbeFits(s', j) {
      assert ProbeFits(s, j);
    }
    LogEntry(s, s', a.k);
  }

  lemma LogEntry(s: State, s': State, k: nat)
    requires Inv(s) && Log(s, s', k)
    ensures EntriesFit(s')
  {
    var e := Entry(k, s.probes[k].o.Found?);
    assert ProbeFits(s, k);
    KeepOffers(s, s', k);
    forall i | 0 <= i < |s.entries| ensures s.entries[i].server != k {
      assert EntryFits(s, s.entries[i]);
    }
    forall i | 0 <= i < |s'.entries| ensures EntryFits(s', s'.entries[i]) {
      if i < |s.entries| {
        assert EntryFits(s, s.entries[i]);
      }
    }
    assert s'.entries[|s.entries|] == e;
    forall j | 0 <= j < |s'.probes| && Logged(s'.probes[j]) ensures Entry(j, s'.probes[j].o.Found?) in s'.entries {
      if j != k {
        assert Entry(j, s.probes[j].o.Found?) in s.entries;
      }
    }
  }

  predicate Onward(a: Step) {
    a.DoSend? || a.DoCancel? || a.DoLeave?
  }

  /** A probe that has logged moves on with the same outcome. */
  lemma OnwardMoves(s: State, s': State, a: Step)
    requires Inv(s) && Next(s, s', a) && Onward(a)
    ensures a.k < |s.probes| && s' == s.(probes := s'.probes, wg := s'.wg, buf := s'.buf, cancelled := s'.cancelled)
    ensures s'.probes == s.probes[a.k := s'.probes[a.k]] && Logged(s.probes[a.k]) && Logged(s'.probes[a.k])
    ensures s'.probes[a.k].o == s.probes[a.k].o && !s.closed
    ensures Offered(s.probes[a.k]) ==> Offered(s'.probes[a.k])
    ensures s.buf.Some? ==> s'.buf == s.buf
    ensures !a.DoCancel? ==> s'.cancelled == s.cancelled
    ensures a.DoCancel? ==> Offered(s'.probes[a.k])
  {
    assert ProbeFits(s, a.k);
  }

  lemma OnwardFits(s: State, s': State, a: Step)
    requires Inv(s) && Next(s, s', a) && Onward(a)
    ensures Shape(s') && AllFit(s')
  {
    OnwardMoves(s, s', a);
    CountUpdate(s.probes, a.k, s'.probes[a.k]);
    forall j | 0 <= j < |s'.probes| ensures ProbeFits(s', j) {
      assert ProbeFits(s, j);
      assert ProbeFits(s, a.k);
    }
  }

  lemma OnwardEntries(s: State, s': State, a: Step)
    requires Inv(s) && Next(s, s', a) && Onward(a)
    ensures EntriesFit(s') && AnswerFits(s')
  {
    OnwardMoves(s, s', a);
    forall i | 0 <= i < |s'.entries| ensures EntryFits(s', s'.entries[i]) {
      assert EntryFits(s, s.entries[i]);
    }
    forall j | 0 <= j < |s'.probes| && Logged(s'.probes[j]) ensures Entry(j, s'.probes[j].o.Found?) in s'.entries {
      assert Entry(j, s.probes[j].o.Found?) in s.entries;
    }
  }

  lemma OnwardOffers(s: State, s': State, a: Step)
    requires Inv(s) && Next(s, s', a) && Onward(a)
    ensures Winners(s') && NotCancelledYet(s')
  {
    OnwardMoves(s, s', a);
    assert ProbeFits(s, a.k);
    assert forall k :: 0 <= k < |s.probes| && Offered(s.probes[k]) ==> Offered(s'.probes[k]);
    assert a.DoCancel? ==> Offered(s'.probes[a.k]);
  }

  lemma CloseKeeps(s: State, s': State, a: Step)
    requires Inv(s) && Next(s, s', a) && (a.DoClose? || a.DoFlush?)
    ensures Inv(s')
  {
    forall j | 0 <= j < |s'.probes| ensures ProbeFits(s', j) {
      assert ProbeFits(s, j);
      if a.DoClose? {
        CountZero(s.probes, j);
      }
    }
    forall i | 0 <= i < |s'.entries| ensures EntryFits(s', s'.entries[i]) {
      assert EntryFits(s, s.entries[i]);
    }
  }

  lemma ReturnKeeps(s: State, s': State, a: Step)
    requires Inv(s) && Next(s, s', a) && (a.DoReceive? || a.DoReceiveClosed? || a.DoGiveUp? || a.DoContext?)
    ensures Inv(s')
  {
    forall j | 0 <= j < |s'.probes| ensures ProbeFits(s', j) {
      assert ProbeFits(s, j);
    }
    forall i | 0 <= i < |s'.entries| ensures EntryFits(s', s'.entries[i]) {
      assert EntryFits(s, s.entries[i]);
    }
    if a.DoReceiveClosed? {
      NobodyHadIt(s, s');
    }
  }

  /** The closed channel comes up empty only when every upstream was asked and every probe failed, and none of them
      because the probes had been called off unless the caller's own context was over. */
  lemma NobodyHadIt(s: State, s': State)
    requires Inv(s) && ReceiveClosed(s, s')
    ensures forall k :: 0 <= k < |s.servers| && !s.servers[k].down ==> Failed(s.probes[k])
    ensures !s.ctxDone ==> forall k :: 0 <= k < |s.servers| && !s.servers[k].down ==> s.probes[k] == Gone(Refused)
  {
    forall j | 0 <= j < |s.probes| ensures !Offered(s.probes[j]) {
      assert ProbeFits(s, j);
    }
    forall k | 0 <= k < |s.servers| && !s.servers[k].down
      ensures Failed(s.probes[k]) && (!s.ctxDone ==> s.probes[k] == Gone(Refused))
    {
      assert ProbeFits(s, k);
    }
  }

  lemma NextKeeps(s: State, s': State, a: Step)
    requires Inv(s) && Next(s, s', a)
    ensures Inv(s')
  {
    match a
    case DoLaunch | DoSelect => CallerKeeps(s, s', a);
    case DoProbe(_, _) => ProbeKeeps(s, s', a);
    case DoLog(_) => LogKeeps(s, s', a);
    case DoSend(_) | DoCancel(_) | DoLeave(_) => OnwardFits(s, s', a); OnwardEntries(s, s', a); OnwardOffers(s, s', a);
    case DoClose | DoFlush => CloseKeeps(s, s', a);
    case DoReceive | DoReceiveClosed | DoGiveUp | DoContext => ReturnKeeps(s, s', a);
  }

  lemma {:induction false} RunKeeps(run: seq<State>, i: nat)
    requires IsRun(run) && i < |run|
    ensures Inv(run[i]) && run[i].servers == run[0].servers
    decreases i
  {
    if i == 0 {
      InitHolds(run[0]);
    } else {
      RunKeeps(run, i - 1);
      assert StepAt(run, i - 1);
      var a :| Next(run[i - 1], run[i - 1 + 1], a);
      NextKeeps(run[i - 1], run[i], a);
    }
  }

  // ------------------------------------------------------------------ the theorems

  /** The winner is an upstream that was asked, and the headers are those of its own successful probe. */
  lemma WinnerBringsItsOwnHeaders(run: seq<State>, i: nat)
    requires IsRun(run) && i < |run| && run[i].caller.Returned? && run[i].caller.answer.Won?
    ensures var w := run[i].caller.answer;
      w.server < |run[0].servers| == |run[i].probes| && !run[0].servers[w.server].down
      && Offered(run[i].probes[w.server]) && run[i].probes[w.server].o == Found(w.headers)
  {
    RunKeeps(run, i);
    assert ProbeFits(run[i], run[i].caller.answer.server);
  }

  lemma NotFoundMeansNobodyHasIt(run: seq<State>, i: nat)
    requires IsRun(run) && i < |run| && run[i].caller == Returned(NotFound)
    ensures |run[i].probes| == |run[0].servers|
    ensures forall k :: 0 <= k < |run[0].servers| && !run[0].servers[k].down ==> Failed(run[i].probes[k])
  {
    RunKeeps(run, i);
  }

  /** The channel is never sent to once closed, nor closed twice: nobody who is about to finds it closed. */
  lemma NoPanic(run: seq<State>, i: nat)
    requires IsRun(run) && i < |run|
    ensures !run[i].panicked
    ensures run[i].closed ==> !run[i].closer.Awaiting? && forall k :: 0 <= k < |run[i].probes| ==>
        !run[i].probes[k].Sending?
  {
    RunKeeps(run, i);
    forall k | 0 <= k < |run[i].probes| && run[i].closed ensures !run[i].probes[k].Sending? {
      assert ProbeFits(run[i], k);
    }
  }

  /** What is logged has exactly one entry per upstream that is not Down, each telling how its probe ended. */
  lemma OneEntryPerProbe(run: seq<State>, i: nat)
    requires IsRun(run) && i < |run| && run[i].logged.Some?
    ensures |run[i].probes| == |run[0].servers|
    ensures var log, probes, servers := run[i].logged.value, run[i].probes, run[0].servers;
      && (forall x, y :: 0 <= x < y < |log| ==> log[x].server != log[y].server)
      && (forall k: nat, ok :: Entry(k, ok) in log <==>
            k < |servers| && !servers[k].down && probes[k].Gone? && ok == probes[k].o.Found?)
      && (forall k :: 0 <= k < |servers| && !servers[k].down ==> probes[k].Gone?)
  {
    RunKeeps(run, i);
    var s := run[i];
    forall k | 0 <= k < |s.servers| ensures if s.servers[k].down then s.probes[k].Skipped? else s.probes[k].Gone? {
      assert ProbeFits(s, k);
    }
    forall k: nat, ok ensures Entry(k, ok) in s.entries <==>
      k < |s.servers| && !s.servers[k].down && s.probes[k].Gone? && ok == s.probes[k].o.Found?
    {
      if x :| 0 <= x < |s.entries| && s.entries[x] == Entry(k, ok) {
        assert EntryFits(s, s.entries[x]);
      }
    }
  }

  // ------------------------------------------------------------------ it returns

  /** How many steps a probe has left. */
  function Left(p: Probe): nat {
    match p
    case Idle => 6
    case Probing => 5
    case Logging(_) => 4
    case Sending(_) => 3
    case Cancelling(_) => 2
    case Exiting(_) => 1
    case _ => 0
  }

  function AllLeft(probes: seq<Probe>): nat {
    if probes == [] then 0 else Left(probes[0]) + AllLeft(probes[1..])
  }

  lemma {:induction false} AllLeftUpdate(probes: seq<Probe>, k: nat, p: Probe)
    requires k < |probes|
    ensures AllLeft(probes[k := p]) == AllLeft(probes) - Left(probes[k]) + Left(p)
  {
    var q := probes[k := p];
    if k == 0 {
      assert q[1..] == probes[1..];
    } else {
      assert q[1..] == probes[1..][k - 1 := p];
      AllLeftUpdate(probes[1..], k - 1, p);
    }
  }

  function Measure(s: State): nat {
    AllLeft(s.probes)
    + (match s.caller case Launching(k) => 2 case Selecting => 1 case Returned(_) => 0)
    + (match s.closer case Unborn => 3 case Awaiting => 2 case Closed => 1 case Flushed => 0)
    + (if s.ctxDone then 0 else 1)
  }

  lemma ProbeMoves(s: State, s': State, k: nat)
    requires k < |s.probes| == |s'.probes| && s'.probes == s.probes[k := s'.probes[k]]
    requires Left(s'.probes[k]) < Left(s.probes[k])
    requires s'.caller == s.caller && s'.closer == s.closer && s'.ctxDone == s.ctxDone
    ensures Measure(s') < Measure(s)
  {
    AllLeftUpdate(s.probes, k, s'.probes[k]);
  }

  lemma ProbeRunsOut(s: State, s': State, a: Step)
    requires Inv(s) && Next(s, s', a) && (a.DoProbe? || a.DoLog? || Onward(a))
    ensures Measure(s') < Measure(s)
  {
    if Onward(a) {
      OnwardMoves(s, s', a);
      OnwardShrinks(s, s', a);
    }
    ProbeMoves(s, s', a.k);
  }

  lemma OnwardShrinks(s: State, s': State, a: Step)
    requires Next(s, s', a) && Onward(a) && !s.closed
    ensures a.k < |s.probes| == |s'.probes| && Left(s'.probes[a.k]) < Left(s.probes[a.k])
  {
  }

  /** Every step uses up something that is never given back, so no run is endless. */
  lemma StepsRunOut(s: State, s': State, a: Step)
    requires Inv(s) && Next(s, s', a)
    ensures Measure(s') < Measure(s)
  {
    if a.DoProbe? || a.DoLog? || Onward(a) {
      ProbeRunsOut(s, s', a);
    } else if a.DoLaunch? {
      assert ProbeFits(s, s.caller.k);
      AllLeftUpdate(s.probes, s.caller.k, s'.probes[s.caller.k]);
    }
  }

  lemma {:induction false} CountSome(probes: seq<Probe>) returns (k: nat)
    requires Count(probes) > 0
    ensures k < |probes| && Running(probes[k])
  {
    if Running(probes[0]) {
      k := 0;
    } else {
      k := CountSome(probes[1..]);
      k := k + 1;
    }
  }

  /** As long as the caller waits, something can happen that is not its own context's doing; and unless a probe is
      still out, it can happen without any probe. */
  lemma NeverStuck(s: State) returns (s': State, a: Step)
    requires Inv(s) && !s.caller.Returned?
    ensures Next(s, s', a) && !a.DoContext? && !a.DoGiveUp?
    ensures a.DoProbe? ==> s.probes[a.k] == Probing
    ensures (forall k :: 0 <= k < |s.probes| ==> s.probes[k] != Probing) ==> !a.DoProbe?
  {
    if s.caller.Launching? {
      var k := s.caller.k;
      if k < |s.servers| {
        a := DoLaunch;
        s' := (if s.servers[k].down then Move(s, k, Skipped)
          else Move(s, k, Probing).(wg := s.wg + 1)).(caller := Launching(k + 1));
      } else {
        a := DoSelect;
        s' := s.(caller := Selecting, closer := Awaiting);
      }
    } else if s.buf.Some? {
      a := DoReceive;
      s' := Return(s, Won(s.buf.value.0, s.buf.value.1)).(buf := None);
    } else if s.closed {
      a := DoReceiveClosed;
      s' := Return(s, NotFound);
    } else if s.wg == 0 {
      a := DoClose;
      s' := s.(closed := true, panicked := s.panicked || s.closed, closer := Closed);
    } else {
      var k := CountSome(s.probes);
      assert ProbeFits(s, k);
      s', a := ProbeCanMove(s, k);
    }
  }

  lemma ProbeCanMove(s: State, k: nat) returns (s': State, a: Step)
    requires k < |s.probes| && Running(s.probes[k]) && !s.closed && s.buf == None
    requires s.probes[k].Sending? ==> s.probes[k].o.Found?
    ensures Next(s, s', a) && !a.DoContext? && !a.DoGiveUp?
    ensures a.DoProbe? ==> a.k == k && s.probes[k] == Probing
  {
    match s.probes[k]
    case Probing => a := DoProbe(k, Refused); s' := Move(s, k, Logging(Refused));
    case Logging(o) =>
      a := DoLog(k);
      s' := Move(s, k, if o.Found? then Sending(o) else Exiting(o)).(entries := s.entries + [Entry(k, o.Found?)]);
    case Sending(o) => a := DoSend(k); s' := Move(s, k, Cancelling(o)).(buf := Some((k, o.headers)));
    case Cancelling(o) => a := DoCancel(k); s' := Move(s, k, Exiting(o)).(cancelled := true);
    case Exiting(o) => a := DoLeave(k); s' := Move(s, k, Gone(o)).(wg := s.wg - 1);
  }

  /** No run is longer than what it has to do. */
  lemma {:induction false} RunsAreShort(run: seq<State>, i: nat)
    requires IsRun(run) && i < |run|
    ensures i + Measure(run[i]) <= Measure(run[0])
    decreases i
  {
    if i == 0 {
    } else {
      RunsAreShort(run, i - 1);
      RunKeeps(run, i - 1);
      assert StepAt(run, i - 1);
      var a :| Next(run[i - 1], run[i - 1 + 1], a);
      StepsRunOut(run[i - 1], run[i], a);
    }
  }

  /** Nobody goes on asking in vain: once the caller is back, its context has ended, or the probe whose result was taken
      has moved on, all the others are called off. */
  ghost predicate CalledOff(s: State) {
    && (s.caller.Returned? || s.ctxDone ==> s.cancelled)
    && (s.buf.Some? && s.buf.value.0 < |s.probes| && !s.probes[s.buf.value.0].Cancelling? ==> s.cancelled)
  }

  lemma CalledOffStep(s: State, s': State, a: Step)
    requires CalledOff(s) && Inv(s) && Next(s, s', a)
    ensures CalledOff(s')
  {
    match a
    case DoLaunch => assert ProbeFits(s, s.caller.k);
    case DoSend(k) => assert s.buf == None && !s.closed ==> s'.probes[k].Cancelling?;
    case DoCancel(k) => assert s'.cancelled;
    case _ =>
  }

  lemma {:induction false} OthersAreCalledOff(run: seq<State>, i: nat)
    requires IsRun(run) && i < |run|
    ensures CalledOff(run[i])
  {
    if i == 0 {
    } else {
      OthersAreCalledOff(run, i - 1);
      RunKeeps(run, i - 1);
      assert StepAt(run, i - 1);
      var a :| Next(run[i - 1], run[i], a);
      CalledOffStep(run[i - 1], run[i], a);
    }
  }

  /** That the context ended is answered only when it has. */
  lemma {:induction false} ContextAnswerNeedsContext(run: seq<State>, i: nat)
    requires IsRun(run) && i < |run|
    ensures run[i].caller == Returned(ContextDone) ==> run[i].ctxDone
    decreases i
  {
    if i == 0 {
    } else {
      ContextAnswerNeedsContext(run, i - 1);
      assert StepAt(run, i - 1);
      var a :| Next(run[i - 1], run[i - 1 + 1], a);
      ContextAnswerStep(run[i - 1], run[i], a);
    }
  }

  lemma ContextAnswerStep(s: State, s': State, a: Step)
    requires Next(s, s', a) && (s.caller == Returned(ContextDone) ==> s.ctxDone)
    ensures s'.caller == Returned(ContextDone) ==> s'.ctxDone
  {
  }

  lemma ProbeGoesOn(s: State, k: nat) returns (s': State, a: Step)
    requires Inv(s) && k < |s.probes| && Running(s.probes[k]) && s.probes[k] != Probing
    ensures Next(s, s', a) && !a.DoProbe? && !a.DoContext?
  {
    assert ProbeFits(s, k);
    match s.probes[k]
    case Logging(o) =>
      a := DoLog(k);
      s' := Move(s, k, if o.Found? then Sending(o) else Exiting(o)).(entries := s.entries + [Entry(k, o.Found?)]);
    case Sending(o) =>
      a := DoSend(k);
      s' := if s.buf == None then Move(s, k, Cancelling(o)).(buf := Some((k, o.headers))) else Move(s, k, Exiting(o));
    case Cancelling(o) => a := DoCancel(k); s' := Move(s, k, Exiting(o)).(cancelled := true);
    case Exiting(o) => a := DoLeave(k); s' := Move(s, k, Gone(o)).(wg := s.wg - 1);
  }

  lemma {:induction false} NoneRunning(probes: seq<Probe>)
    requires forall k :: 0 <= k < |probes| ==> !Running(probes[k])
    ensures Count(probes) == 0
  {
    if probes == [] {
    } else {
      NoneRunning(probes[1..]);
    }
  }

  lemma CloserGoesOn(s: State) returns (s': State, a: Step)
    requires Inv(s) && !s.closer.Unborn? && !s.closer.Flushed?
    requires forall k :: 0 <= k < |s.probes| ==> !Running(s.probes[k])
    ensures Next(s, s', a) && !a.DoProbe? && !a.DoContext?
  {
    NoneRunning(s.probes);
    if s.closer.Awaiting? {
      a := DoClose;
      s' := s.(closed := true, panicked := s.panicked || s.closed, closer := Closed);
    } else {
      a := DoFlush;
      s' := s.(logged := Some(s.entries), closer := Flushed);
    }
  }

  /** Nothing can happen any more but a probe ending or the caller's context, and no probe is out. */
  ghost predicate IsStuck(s: State) {
    && (forall a, s' :: Next(s, s', a) ==> a.DoProbe? || a.DoContext?)
    && forall k :: 0 <= k < |s.probes| ==> s.probes[k] != Probing
  }

  lemma StuckProbes(s: State, k: nat)
    requires Inv(s) && IsStuck(s) && k < |s.probes|
    ensures !Running(s.probes[k])
  {
    if Running(s.probes[k]) {
      var s', a := ProbeGoesOn(s, k);
      assert false;
    }
  }

  lemma StuckCaller(s: State)
    requires Inv(s) && IsStuck(s)
    ensures s.caller.Returned?
  {
    if !s.caller.Returned? {
      var s', a := NeverStuck(s);
      assert false;
    }
  }

  lemma StuckCloser(s: State)
    requires Inv(s) && IsStuck(s) && s.caller.Returned?
    ensures s.closer.Flushed?
  {
    forall k | 0 <= k < |s.probes| ensures !Running(s.probes[k]) {
      StuckProbes(s, k);
    }
    if !s.closer.Flushed? {
      var s', a := CloserGoesOn(s);
      assert false;
    }
  }

  /** `tryAllServers` returns once its probes have ended, whatever they answered and with its caller's context still
      alive: a run in which nothing can happen but a probe ending or that context ending, and no probe is out, has
      returned. With the context alive it then has a winner if any upstream had it, and otherwise says that none has.
      And every probe is gone by then, and what they brought is logged. */
  lemma StuckMeansReturned(run: seq<State>, i: nat)
    requires IsRun(run) && i < |run|
    requires forall a, s' :: Next(run[i], s', a) ==> a.DoProbe? || a.DoContext?
    requires forall k :: 0 <= k < |run[i].probes| ==> run[i].probes[k] != Probing
    ensures run[i].caller.Returned? && run[i].logged.Some?
    ensures forall k :: 0 <= k < |run[i].probes| ==> run[i].probes[k].Skipped? || run[i].probes[k].Gone?
    ensures !run[i].ctxDone ==>
              var answer, probes := run[i].caller.answer, run[i].probes;
              && (answer.Won? <==> exists k :: 0 <= k < |probes| && probes[k].Gone? && probes[k].o.Found?)
              && (answer.NotFound? <==> !exists k :: 0 <= k < |probes| && probes[k].Gone? && probes[k].o.Found?)
  {
    var s := run[i];
    RunKeeps(run, i);
    assert IsStuck(s);
    StuckCaller(s);
    StuckCloser(s);
    FlushedIsLogged(run, i);
    forall k | 0 <= k < |s.probes| ensures s.probes[k].Skipped? || s.probes[k].Gone? {
      StuckProbes(s, k);
      assert ProbeFits(s, k);
    }
    ContextAnswerNeedsContext(run, i);
    AnswerIsWhatWasFound(run, i);
    assert forall k :: 0 <= k < |s.probes| ==> (Offered(s.probes[k]) <==> s.probes[k].Gone? && s.probes[k].o.Found?);
  }

  lemma {:induction false} FlushedIsLogged(run: seq<State>, i: nat)
    requires IsRun(run) && i < |run|
    ensures run[i].closer.Flushed? ==> run[i].logged.Some?
  {
    if i == 0 {
    } else {
      FlushedIsLogged(run, i - 1);
      assert StepAt(run, i - 1);
      var a :| Next(run[i - 1], run[i - 1 + 1], a);
      FlushStep(run[i - 1], run[i], a);
    }
  }

  lemma FlushStep(s: State, s': State, a: Step)
    requires Next(s, s', a) && (s.closer.Flushed? ==> s.logged.Some?)
    ensures s'.closer.Flushed? ==> s'.logged.Some?
  {
    match a
    case DoFlush => assert Flush(s, s');
    case DoSelect => assert s'.closer == Awaiting;
    case DoClose => assert s'.closer == Closed;
    case DoSend(k) => SendKeepsLog(s, s', k);
    case _ => assert s'.closer == s.closer && s'.logged == s.logged;
  }

  lemma SendKeepsLog(s: State, s': State, k: nat)
    requires Send(s, s', k)
    ensures s'.closer == s.closer && s'.logged == s.logged
  {
  }

  lemma AnswerIsWhatWasFound(run: seq<State>, i: nat)
    requires IsRun(run) && i < |run| && run[i].caller.Returned?
    ensures run[i].caller.answer.Won? ==> exists k :: 0 <= k < |run[i].probes| && Offered(run[i].probes[k])
    ensures run[i].caller.answer.NotFound? ==> !exists k :: 0 <= k < |run[i].probes| && Offered(run[i].probes[k])
  {
    RunKeeps(run, i);
    if run[i].caller.answer.Won? {
      WinnerBringsItsOwnHeaders(run, i);
    }
    if run[i].caller.answer.NotFound? {
      NotFoundMeansNobodyHasIt(run, i);
      forall k | 0 <= k < |run[i].probes| ensures !Offered(run[i].probes[k]) {
        assert ProbeFits(run[i], k);
      }
    }
  }
}
