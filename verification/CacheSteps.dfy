/** Every step of the streaming cache keeps its invariant. */
module CacheSteps {
  import opened CacheState
  import opened CacheInvariants

  /** What a download's step leaves alone: everyone else's entry and body, and every other key's listing. */
  ghost predicate Frame(s: State, s': State, d: Id) {
    && d in s.dls && d in s'.dls
    && s'.next == s.next && s'.dls == s.dls[d := s'.dls[d]]
    && (forall o :: o in s.bodies && o != d ==> o in s'.bodies && s'.bodies[o] == s.bodies[o])
    && (forall o :: o in s'.bodies && o != d ==> o in s.bodies)
    && (s'.inflight == s.inflight ||
        (s.dls[d].done && s.dls[d].key in s.inflight && s.inflight[s.dls[d].key] == d
          && s'.inflight == s.inflight - {s.dls[d].key}))
  }

  /** How the step changed its own entry and body. */
  predicate OwnChange(s: State, s': State, d: Id)
    requires d in s.dls && d in s'.dls
  {
    && DlOk(s', d)
    && EntryEvolves(s.dls[d], s'.dls[d])
    && (d in s.bodies ==> d in s'.bodies && BodyEvolves(s.bodies[d], s'.bodies[d]))
    && (s'.resps == Wake(s.resps, d) || (s'.resps == s.resps && SamePromise(s.dls[d], s'.dls[d])))
  }

  /** Nothing a parked response waits for has changed. */
  predicate SamePromise(e: Download, e': Download) {
    e'.headersReady == e.headersReady && e'.size == e.size && e'.done == e.done
  }

  lemma DownloadsStay(s: State, s': State, d: Id)
    requires DownloadsOk(s) && Frame(s, s', d) && OwnChange(s, s', d)
    ensures DownloadsOk(s')
  {
    forall o | o in s'.dls ensures DlOk(s', o) {
      if o != d {
        assert DlOk(s, o) && s'.dls[o] == s.dls[o];
        assert Backed(s', o);
        assert Listed(s', o);
      }
    }
  }

  lemma IndexStays(s: State, s': State, d: Id)
    requires IndexOk(s) && Frame(s, s', d) && OwnChange(s, s', d)
    ensures IndexOk(s')
  {
    forall k | k in s'.inflight ensures s'.inflight[k] in s'.dls && s'.dls[s'.inflight[k]].key == k {
      assert k in s.inflight && s'.inflight[k] == s.inflight[k];
    }
  }

  lemma ResponsesStay(s: State, s': State, d: Id)
    requires ResponsesOk(s) && Frame(s, s', d) && OwnChange(s, s', d)
    ensures ResponsesOk(s')
  {
    assert EntriesEvolve(s, s') && BodiesEvolve(s, s');
    if s'.resps == Wake(s.resps, d) {
      ResponsesWake(s, s', d);
    } else {
      ResponsesSleep(s, s', d);
    }
  }

  lemma SlotsStay(s: State, s': State, d: Id)
    requires SlotsOk(s) && d in s.dls && d in s'.dls && s'.dls == s.dls[d := s'.dls[d]] && !s.dls[d].stage.Returned?
    requires if s'.dls[d].stage.Returned? then s.taken > 0 && s'.taken == s.taken - 1 else s'.taken == s.taken
    ensures SlotsOk(s')
  {
    if s'.dls[d].stage.Returned? {
      assert Running(s'.dls) == Running(s.dls) - {d};
    } else {
      assert Running(s'.dls) == Running(s.dls);
    }
  }

  /** A download step's own part: its entry stays well-formed and evolves, and its frame is kept. */
  ghost predicate OwnPart(s: State, s': State, d: Id) {
    Frame(s, s', d) && OwnChange(s, s', d) && !s.dls[d].stage.Returned?
  }

  lemma StopStep(s: State, s': State, d: Id, a: DownloadStep)
    requires d in s.dls && DlOk(s, d) && DownloadNext(s, s', d, a)
    requires a.Fail? || a.Eof?
    ensures OwnPart(s, s', d)
  {
  }

  lemma FillStep(s: State, s': State, d: Id, a: DownloadStep)
    requires d in s.dls && DlOk(s, d) && DownloadNext(s, s', d, a)
    requires a.Create? || a.Write?
    ensures OwnPart(s, s', d)
  {
  }

  lemma PublishStep(s: State, s': State, d: Id, a: DownloadStep)
    requires d in s.dls && DlOk(s, d) && DownloadNext(s, s', d, a)
    requires a.Headers? || a.Publish? || a.Seal?
    ensures OwnPart(s, s', d)
  {
  }

  lemma StoreStep(s: State, s': State, d: Id, a: DownloadStep)
    requires d in s.dls && DlOk(s, d) && DownloadNext(s, s', d, a)
    requires a.NotStored? || a.Rename?
    ensures OwnPart(s, s', d)
  {
  }

  lemma MetaStep(s: State, s': State, d: Id, a: DownloadStep)
    requires d in s.dls && DlOk(s, d) && DownloadNext(s, s', d, a)
    requires a.MetaCreate? || a.MetaWrite?
    ensures OwnPart(s, s', d)
  {
  }

  lemma MetaEndStep(s: State, s': State, d: Id, a: DownloadStep)
    requires d in s.dls && DlOk(s, d) && DownloadNext(s, s', d, a)
    requires a.MetaRename? || a.MetaFail?
    ensures OwnPart(s, s', d)
  {
  }

  lemma UndoStep(s: State, s': State, d: Id, a: DownloadStep)
    requires d in s.dls && DlOk(s, d) && DownloadNext(s, s', d, a)
    requires a.Rollback? || a.Drop?
    ensures OwnPart(s, s', d)
  {
  }

  lemma AnnounceStep(s: State, s': State, d: Id, a: DownloadStep)
    requires d in s.dls && DlOk(s, d) && DownloadNext(s, s', d, a)
    requires a.Announce?
    ensures OwnPart(s, s', d)
  {
  }

  lemma ReturnStep(s: State, s': State, d: Id, a: DownloadStep)
    requires d in s.dls && DlOk(s, d) && DownloadNext(s, s', d, a)
    requires a.Clean? || a.Return?
    ensures OwnPart(s, s', d)
  {
  }

  lemma FillingStep(s: State, s': State, d: Id, a: DownloadStep)
    requires d in s.dls && DlOk(s, d) && DownloadNext(s, s', d, a)
    requires a.Fail? || a.Eof? || a.Create? || a.Write? || a.Headers? || a.Publish? || a.Seal?
    ensures OwnPart(s, s', d)
  {
    if a.Fail? || a.Eof? {
      StopStep(s, s', d, a);
    } else if a.Create? || a.Write? {
      FillStep(s, s', d, a);
    } else {
      PublishStep(s, s', d, a);
    }
  }

  lemma StoringStep(s: State, s': State, d: Id, a: DownloadStep)
    requires d in s.dls && DlOk(s, d) && DownloadNext(s, s', d, a)
    requires a.NotStored? || a.Rename? || a.MetaCreate? || a.MetaWrite? || a.MetaRename? || a.MetaFail? || a.Rollback?
    ensures OwnPart(s, s', d)
  {
    if a.NotStored? || a.Rename? {
      StoreStep(s, s', d, a);
    } else if a.MetaCreate? || a.MetaWrite? {
      MetaStep(s, s', d, a);
    } else if a.MetaRename? || a.MetaFail? {
      MetaEndStep(s, s', d, a);
    } else {
      UndoStep(s, s', d, a);
    }
  }

  lemma TeardownStep(s: State, s': State, d: Id, a: DownloadStep)
    requires d in s.dls && DlOk(s, d) && DownloadNext(s, s', d, a)
    requires a.Announce? || a.Drop? || a.Clean? || a.Return?
    ensures OwnPart(s, s', d)
  {
    if a.Announce? {
      AnnounceStep(s, s', d, a);
    } else if a.Drop? {
      UndoStep(s, s', d, a);
    } else {
      ReturnStep(s, s', d, a);
    }
  }

  lemma StepHasDownload(s: State, s': State, d: Id, a: DownloadStep)
    requires DownloadNext(s, s', d, a)
    ensures d in s.dls
  {
  }

  lemma OwnStep(s: State, s': State, d: Id, a: DownloadStep)
    requires DownloadsOk(s) && DownloadNext(s, s', d, a)
    ensures OwnPart(s, s', d)
  {
    StepHasDownload(s, s', d, a);
    assert DlOk(s, d);
    if a.Fail? || a.Eof? || a.Create? || a.Write? || a.Headers? || a.Publish? || a.Seal? {
      FillingStep(s, s', d, a);
    } else if a.Announce? || a.Drop? || a.Clean? || a.Return? {
      TeardownStep(s, s', d, a);
    } else {
      StoringStep(s, s', d, a);
    }
  }

  /** A step puts nothing under a blob's name but its own body, by its rename. */
  lemma BlobsOf(s: State, s': State, d: Id, a: DownloadStep)
    requires DownloadNext(s, s', d, a)
    ensures forall k :: k in s'.blobs ==>
              (k in s.blobs && s'.blobs[k] == s.blobs[k]) || (a.Rename? && k == s.dls[d].key && s'.blobs[k] == d)
    ensures a.Rename? ==> s.dls[d].stage.Sealed? && s'.bodies == s.bodies
  {
  }

  /** Whole files stay whole: a step changes no complete body, and renames only a complete one into place. */
  lemma BlobsStay(s: State, s': State, d: Id, a: DownloadStep)
    requires DownloadsOk(s) && DiskOk(s) && DownloadNext(s, s', d, a) && OwnPart(s, s', d)
    ensures forall k :: k in s'.blobs ==> WholeBlob(s', k, s'.blobs[k])
  {
    BlobsOf(s, s', d, a);
    assert DlOk(s, d);
    forall k | k in s'.blobs ensures WholeBlob(s', k, s'.blobs[k]) {
      if k in s.blobs && s.blobs[k] == s'.blobs[k] {
        BlobStays(s, s', d, k);
      }
    }
  }

  lemma BlobStays(s: State, s': State, d: Id, k: Key)
    requires k in s.blobs && WholeBlob(s, k, s.blobs[k]) && OwnPart(s, s', d)
    ensures WholeBlob(s', k, s.blobs[k])
  {
    if s.blobs[k] == d {
      assert BodyEvolves(s.bodies[d], s'.bodies[d]);
    }
  }

  lemma BodiesAreNumbered(s: State, s': State, d: Id)
    requires DownloadsOk(s) && DiskOk(s) && OwnPart(s, s', d)
    ensures forall o :: o in s'.bodies ==> o < s'.next
  {
    assert DlOk(s, d);
  }

  /** A step puts nothing under a .meta's name but its own document, by its rename. */
  lemma MetasOf(s: State, s': State, d: Id, a: DownloadStep)
    requires DownloadNext(s, s', d, a)
    ensures forall k :: k in s'.metas ==>
              || (k in s.metas && s'.metas[k] == s.metas[k])
              || (s.dls[d].stage.MetaWritten? && d in s.metaTmps && s'.metas[k] == s.metaTmps[d])
  {
  }

  /** And writes no other document than its own, to its end before it says so. */
  lemma MetaTmpsOf(s: State, s': State, d: Id, a: DownloadStep)
    requires DownloadNext(s, s', d, a)
    ensures forall o :: o in s'.metaTmps && o != d ==> o in s.metaTmps && s'.metaTmps[o] == s.metaTmps[o]
    ensures d in s'.dls && s'.dls[d].stage.MetaWritten? && d in s'.metaTmps ==> s'.metaTmps[d].Full?
  {
  }

  lemma MetasStay(s: State, s': State, d: Id, a: DownloadStep)
    requires DiskOk(s) && DownloadNext(s, s', d, a) && Frame(s, s', d)
    ensures forall k :: k in s'.metas ==> s'.metas[k].Full?
    ensures forall o :: o in s'.dls && s'.dls[o].stage.MetaWritten? && o in s'.metaTmps ==> s'.metaTmps[o].Full?
  {
    MetasOf(s, s', d, a);
    MetaTmpsOf(s, s', d, a);
  }

  lemma DiskStays(s: State, s': State, d: Id, a: DownloadStep)
    requires DownloadsOk(s) && DiskOk(s) && DownloadNext(s, s', d, a) && OwnPart(s, s', d)
    ensures DiskOk(s')
  {
    BlobsStay(s, s', d, a);
    BodiesAreNumbered(s, s', d);
    MetasStay(s, s', d, a);
  }

  lemma SlotsKeep(s: State, s': State, d: Id, a: DownloadStep)
    requires SlotsOk(s) && DownloadNext(s, s', d, a) && OwnPart(s, s', d)
    ensures SlotsOk(s')
  {
    SlotsStay(s, s', d);
  }

  lemma DownloadKeeps(s: State, s': State, d: Id, a: DownloadStep)
    requires Inv(s) && DownloadNext(s, s', d, a)
    ensures Inv(s')
  {
    OwnStep(s, s', d, a);
    DownloadsStay(s, s', d);
    IndexStays(s, s', d);
    SlotsKeep(s, s', d, a);
    ResponsesStay(s, s', d);
    DiskStays(s, s', d, a);
  }
}
