/** The moments `Read` relies on are the moments of a run: what the reader's method assumes of the entry it
    reads from is what the streaming cache's steps establish. */
module CacheViews {
  import opened CacheFollowers
  import opened CacheInvariants
  import opened CacheState
  import opened CacheSteps
  import opened CacheTheorems
  import opened EntryReader
  import opened Options

  /** What a reader of download d finds in state s. */
  function ViewOf(s: State, d: Id, cancelled: bool, gives: nat, io: Option<Fault>): View
    requires d in s.dls
  {
    var e := s.dls[d];
    View(if d in s.bodies then s.bodies[d].bytes else [], e.size, e.done, e.err, cancelled, gives, io)
  }

  /** Between two states in which the same process runs. */
  ghost predicate SameProcess(s: State, s': State) {
    && EntriesEvolve(s, s') && s.next <= s'.next
    && forall d :: d in s'.dls && d !in s.dls ==> d >= s.next
  }

  lemma JoinStartsAtMostOne(s: State, s': State, f: Id)
    requires Join(s, s', f) && s.next !in s.dls
    ensures SameProcess(s, s')
  {
    JoinedDownloads(s, s', f);
  }

  lemma ResponsesTouchNoEntry(s: State, s': State, f: Id, a: ResponseStep)
    requires ResponseNext(s, s', f, a) && !a.Joins?
    ensures s'.dls == s.dls && s'.next == s.next
  {
  }

  lemma StepIsSameProcess(s: State, s': State, a: Step)
    requires Inv(s) && Next(s, s', a) && !a.ProcessKilled?
    ensures SameProcess(s, s')
  {
    if a.OfDownload? {
      OwnStep(s, s', a.d, a.dl);
    } else if a.OfResponse? {
      if a.resp.Joins? {
        StartIsFresh(s);
        JoinStartsAtMostOne(s, s', a.f);
      } else {
        ResponsesTouchNoEntry(s, s', a.f, a.resp);
      }
    }
  }

  lemma RunStep(run: seq<State>, k: nat)
    requires IsRun(run) && k + 1 < |run|
    ensures SameProcess(run[k], run[k + 1]) || (run[k + 1].dls == map[] && run[k + 1].next == run[k].next)
  {
    RunKeeps(run, k);
    assert StepAt(run, k);
    var a :| Next(run[k], run[k + 1], a);
    if !a.ProcessKilled? {
      StepIsSameProcess(run[k], run[k + 1], a);
    }
  }

  /** A download that has gone - the process died under it - does not come back. */
  lemma {:induction false} GoneForGood(run: seq<State>, i: nat, j: nat, d: Id)
    requires IsRun(run) && i <= j < |run| && d < run[i].next && d !in run[i].dls
    ensures d < run[j].next && d !in run[j].dls
    decreases j - i
  {
    if i == j {
    } else {
      GoneForGood(run, i, j - 1, d);
      RunStep(run, j - 1);
    }
  }

  lemma {:induction false} EntryStays(run: seq<State>, i: nat, j: nat, d: Id)
    requires IsRun(run) && i <= j < |run| && d in run[i].dls && d in run[j].dls
    ensures EntryEvolves(run[i].dls[d], run[j].dls[d])
    decreases j - i
  {
    if i == j {
    } else {
      StillThere(run, i, j, d);
      EntryStays(run, i, j - 1, d);
      RunStep(run, j - 1);
      assert EntryEvolves(run[j - 1].dls[d], run[j].dls[d]);
    }
  }

  lemma StillThere(run: seq<State>, i: nat, j: nat, d: Id)
    requires IsRun(run) && i < j < |run| && d in run[i].dls && d in run[j].dls
    ensures d in run[j - 1].dls
  {
    if d !in run[j - 1].dls {
      RunKeeps(run, i);
      assert Backed(run[i], d);
      NextNeverShrinks(run, i, j - 1);
      GoneForGood(run, j - 1, j, d);
    }
  }

  lemma {:induction false} NextNeverShrinks(run: seq<State>, i: nat, j: nat)
    requires IsRun(run) && i <= j < |run|
    ensures run[i].next <= run[j].next
    decreases j - i
  {
    if i == j {
    } else {
      NextNeverShrinks(run, i, j - 1);
      RunStep(run, j - 1);
    }
  }

  /** Any two moments of a run at which a download is there satisfy what `Read` relies on. */
  lemma RunsAreHistories(run: seq<State>, i: nat, j: nat, d: Id, c: bool, c': bool, gives: nat, gives': nat,
          io: Option<Fault>, io': Option<Fault>)
    requires IsRun(run) && i <= j < |run| && d in run[i].dls && d in run[j].dls
    requires c ==> c'
    ensures Kept(ViewOf(run[i], d, c, gives, io))
    ensures Later(ViewOf(run[i], d, c, gives, io), ViewOf(run[j], d, c', gives', io'))
  {
    EntryStays(run, i, j, d);
    DoneMeansComplete(run, i, d);
    DoneMeansComplete(run, j, d);
    if d in run[i].bodies {
      PublishedStays(run, i, j, d);
    }
  }
}
