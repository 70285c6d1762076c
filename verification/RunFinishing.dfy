/** Finishing a row keeps the invariant: saved, deleted, or failed. */
module RunFinishing {
  import opened Wrappers
  import opened TreeBuilders
  import opened RunMachine
  import opened RunInvariant
  import opened RunFrames
  import opened RunSteps

  // ------------------------------------------------------------ saved

  lemma WriteSavedInv(s: State, t: Token)
    requires Inv(s) && t < |s.workers| && s.workers[t].pc.WriteSaved?
    ensures Inv(WriteSavedStep(s, t))
  {
    var w := s.workers[t];
    if Held(s.g, t) {
      SavedHeld(s, t);
    } else {
      CatchStep(s, t, w.Catch());
    }
  }

  lemma SavedHeld(s: State, t: Token)
    requires Inv(s) && t < |s.workers| && s.workers[t].pc.WriteSaved? && Held(s.g, t)
    ensures var w := s.workers[t];
      Inv(s.With(Wrote(s.g, w.idx, s.g.rows[w.idx].(status := Saved, image := None)), t, SavedWorker(s.job, w)))
  {
    var w := s.workers[t];
    HolderOf(s, t);
    var g' := Wrote(s.g, w.idx, s.g.rows[w.idx].(status := Saved, image := None));
    SavedRow(s.job, s.g, t, w);
    SavedKnown(s, t, g');
    SavedHolder(s.job, s.g, g', w);
    WriteStep(s, t, g', SavedWorker(s.job, w));
  }

  lemma SavedKnown(s: State, t: Token, g': Shared)
    requires Inv(s) && t < |s.workers| && s.workers[t].pc.WriteSaved? && Held(s.g, t)
    requires var w := s.workers[t];
      && RowChange(s.g, g', w.idx) && RowInv(s.job, g', w.idx) && RowGrows(s.g, g', w.idx)
    ensures WorkerInv(s.job, g', t, SavedWorker(s.job, s.workers[t]))
  {
    KnownAfterWrite(s, t, g');
    SavedWorkerInv(s.job, g', t, s.workers[t]);
  }

  /** The image is cleared only once its bytes are stored under the row's channel. */
  lemma SavedRow(job: Job, g: Shared, t: Token, w: Worker)
    requires ShapeInv(job, w) && PcInv(job, g, t, w) && w.pc.WriteSaved?
    requires |g.rows| == |g.applied| == |w.rows| && RowInv(job, g, w.idx) && LocalInv(job, g, w, w.idx)
    requires HolderInv(job, g, w)
    ensures var g' := Wrote(g, w.idx, g.rows[w.idx].(status := Saved, image := None));
      RowInv(job, g', w.idx) && RowGrows(g, g', w.idx)
  {
  }

  lemma SavedWorkerInv(job: Job, g: Shared, t: Token, w: Worker)
    requires SharedInv(job, g) && WorkerInv(job, g, t, w) && w.pc.WriteSaved?
    ensures WorkerInv(job, g, t, SavedWorker(job, w))
  {
    var w' := SavedWorker(job, w);
    forall q ensures LocalInv(job, g, w', q) {
      assert LocalInv(job, g, w, q);
    }
    LocalFresh(job, g, w);
    SavedTree(job, w);
    if w'.listedAt == g.moves {
      forall c ensures SeenIn(g, w'.snap, c) {
        assert SeenIn(g, w.snap, c);
      }
    }
  }

  lemma SavedTree(job: Job, w: Worker)
    requires AtRow(job, w) && w.kind == Resume && w.pc.WriteSaved? && w.rows[w.idx].cid.Some?
    requires TreeInv(job, w) && Fresh(LocalCids(SavedWorker(job, w)), job.root)
    ensures TreeInv(job, SavedWorker(job, w))
  {
    var w' := SavedWorker(job, w);
    var here, cids, p := LocalCids(w), LocalCids(w'), w.idx;
    var c := w.rows[p].cid.value;
    assert cids == here[p := c];
    MapsExtend(job.depths, here, job.root, p, w.parents, w.siblings, c);
    MapsNext(job.depths, cids, job.root, p, w.parents, w.siblings);
  }

  /** A worker's ids are distinct because the run's ids are. */
  lemma LocalFresh(job: Job, g: Shared, w: Worker)
    requires SharedInv(job, g) && ShapeInv(job, w) && w.pc.WriteSaved?
    requires forall q :: LocalInv(job, g, w, q)
    ensures Fresh(LocalCids(SavedWorker(job, w)), job.root)
  {
    var cids := LocalCids(SavedWorker(job, w));
    forall q | q in cids ensures q in BornCids(g.born) && BornCids(g.born)[q] == cids[q] {
      assert LocalInv(job, g, w, q);
    }
  }

  lemma SavedHolder(job: Job, g: Shared, g': Shared, w: Worker)
    requires ShapeInv(job, w) && HolderInv(job, g, w) && w.pc.WriteSaved? && |g.rows| == |w.rows|
    requires g' == Wrote(g, w.idx, g.rows[w.idx].(status := Saved, image := None))
    ensures HolderInv(job, g', SavedWorker(job, w))
  {
    HolderWrites(job, g, g', w, SavedWorker(job, w));
  }

  // ------------------------------------------------------------ deleted

  lemma MarkDeletedInv(s: State, t: Token) returns (s': State)
    requires Inv(s) && t < |s.workers| && s.workers[t].pc.MarkDeleted?
    requires AtRow(s.job, s.workers[t]) && |s.g.rows| == |s.job.depths|
    ensures s' == MarkDeletedStep(s, t) && Inv(s')
  {
    var w := s.workers[t];
    if Held(s.g, t) {
      DeletedHeld(s, t);
      s' := s.With(WithoutImage(s.g, w.idx, w.rows[w.idx].cid), t, w.(idx := w.idx - 1, pc := RowStart));
    } else {
      CatchStep(s, t, w.Catch());
      s' := s.Put(t, w.Catch());
    }
  }

  lemma DeletedHeld(s: State, t: Token)
    requires Inv(s) && t < |s.workers| && s.workers[t].pc.MarkDeleted? && Held(s.g, t)
    ensures var w := s.workers[t];
      Inv(s.With(WithoutImage(s.g, w.idx, w.rows[w.idx].cid), t, w.(idx := w.idx - 1, pc := RowStart)))
  {
    var w := s.workers[t];
    HolderOf(s, t);
    var g' := WithoutImage(s.g, w.idx, w.rows[w.idx].cid);
    var w' := w.(idx := w.idx - 1, pc := RowStart);
    DeletedRow(s.job, s.g, t, w);
    KnownAfterWrite(s, t, g');
    NextDown(s.job, g', t, w, w');
    HolderWrites(s.job, s.g, g', w, w');
    WriteStep(s, t, g', w');
  }

  /** A row is marked deleted only when its channel is gone and no creation is pending. */
  lemma DeletedRow(job: Job, g: Shared, t: Token, w: Worker)
    requires ShapeInv(job, w) && PcInv(job, g, t, w) && w.pc.MarkDeleted?
    requires |g.rows| == |g.applied| == |w.rows| && RowInv(job, g, w.idx) && LocalInv(job, g, w, w.idx)
    requires HolderInv(job, g, w)
    ensures var g' := WithoutImage(g, w.idx, w.rows[w.idx].cid);
      RowChange(g, g', w.idx) && RowInv(job, g', w.idx) && RowGrows(g, g', w.idx)
  {
    assert SameAhead(g, w, w.idx);
  }

  // ------------------------------------------------------------ failed

  lemma RowCatchInv(s: State, t: Token)
    requires Inv(s) && t < |s.workers| && s.workers[t].pc.RowCatch?
    ensures Inv(RowCatchStep(s, t))
  {
    var w := s.workers[t];
    var row := w.rows[w.idx];
    if !Held(s.g, t) || (w.kind == Resume && !(row.status == Creating && row.cid.None?)) {
      LeaveLoop(s, t, w.(failed := true, pc := BodyDone(false)));
    } else if w.kind == Undo {
      RowFails(s, t);
    } else {
      UncertainHeld(s, t);
    }
  }

  lemma RowFails(s: State, t: Token)
    requires Inv(s) && t < |s.workers| && s.workers[t].pc.RowCatch? && s.workers[t].kind == Undo
    ensures var w := s.workers[t]; Inv(s.Put(t, w.(failed := true, idx := w.idx - 1, pc := RowStart)))
  {
    var w := s.workers[t];
    var w' := w.(failed := true, idx := w.idx - 1, pc := RowStart);
    NextDown(s.job, s.g, t, w, w');
    if Held(s.g, t) {
      HolderDown(s.job, s.g, w, w');
    }
    LocalStep(s, t, w');
  }

  lemma UncertainHeld(s: State, t: Token)
    requires Inv(s) && t < |s.workers| && s.workers[t].pc.RowCatch? && Held(s.g, t)
    requires s.workers[t].kind == Resume
    ensures var w := s.workers[t];
      Inv(s.With(Wrote(s.g, w.idx, s.g.rows[w.idx].(status := Uncertain)), t,
                 w.(failed := true, pc := BodyDone(false))))
  {
    var w := s.workers[t];
    HolderOf(s, t);
    var g' := Wrote(s.g, w.idx, s.g.rows[w.idx].(status := Uncertain));
    var w' := w.(failed := true, pc := BodyDone(false));
    UncertainRow(s.job, s.g, w);
    KnownAfterWrite(s, t, g');
    UncertainWorker(s.job, g', t, w);
    UncertainHolder(s.job, s.g, g', w);
    WriteStep(s, t, g', w');
  }

  lemma UncertainWorker(job: Job, g: Shared, t: Token, w: Worker)
    requires WorkerInv(job, g, t, w) && w.pc.RowCatch?
    ensures WorkerInv(job, g, t, w.(failed := true, pc := BodyDone(false)))
  {
    var w' := w.(failed := true, pc := BodyDone(false));
    LeaveShape(job, g, w, w');
    WorkerTo(job, g, t, w, w');
  }

  lemma UncertainHolder(job: Job, g: Shared, g': Shared, w: Worker)
    requires ShapeInv(job, w) && HolderInv(job, g, w) && w.pc.RowCatch? && w.kind == Resume
    requires |g.rows| == |w.rows| && g' == Wrote(g, w.idx, g.rows[w.idx].(status := Uncertain))
    ensures HolderInv(job, g', w.(failed := true, pc := BodyDone(false)))
  {
    HolderWrites(job, g, g', w, w.(failed := true, pc := BodyDone(false)));
  }

  lemma UncertainRow(job: Job, g: Shared, w: Worker)
    requires 0 <= w.idx < |w.rows| == |g.rows| == |g.applied| == |job.depths| == |job.images|
    requires RowInv(job, g, w.idx) && PhaseOk(g.run.status, w) && w.kind == Resume && w.pc.RowCatch?
    ensures var g' := Wrote(g, w.idx, g.rows[w.idx].(status := Uncertain));
      RowInv(job, g', w.idx) && RowGrows(g, g', w.idx)
  {
  }
}
