/** Every step of a worker's row loop keeps the invariant. */
module RunSteps {
  import opened RunMachine
  import opened RunInvariant
  import opened RunFrames

  lemma LoadInv(s: State, t: Token)
    requires Inv(s) && t < |s.workers| && s.workers[t].pc.Load?
    ensures Inv(LoadStep(s, t))
  {
    var w := s.workers[t];
    var w' := w.(rows := s.g.rows, pc := ListChannels);
    forall q ensures LocalInv(s.job, s.g, w', q) {
      assert RowInv(s.job, s.g, q);
    }
    TreeStart(s.job, w, w');
    if Held(s.g, t) {
      forall q ensures SameAhead(s.g, w', q) {
      }
      forall q ensures Finished(s.g, w', q) {
        assert Finished(s.g, w, q);
      }
    }
    LocalStep(s, t, w');
  }

  /** Loading the rows before the first row is done does not affect the maps. */
  lemma TreeStart(job: Job, w: Worker, w': Worker)
    requires TreeInv(job, w) && ShapeInv(job, w) && w.pc.Load?
    requires w' == w.(rows := w'.rows, pc := ListChannels) && |w'.rows| == |w.rows|
    ensures TreeInv(job, w')
  {
    assert w.kind == Resume ==> w.idx == 0 && LocalCids(w') == LocalCids(w) == map[];
  }

  lemma ListInv(s: State, t: Token)
    requires Inv(s) && t < |s.workers| && s.workers[t].pc.ListChannels?
    ensures Inv(ListStep(s, t))
  {
    var w := s.workers[t];
    if w.stopped {
      LeaveLoop(s, t, w.Go(BodyDone(false)));
    } else {
      var w' := w.(snap := Looks(s.g.server), listedAt := s.g.moves, pc := RowStart);
      ListWorker(s.job, s.g, t, w);
      if Held(s.g, t) {
        ListHolder(s.job, s.g, w);
      }
      LocalStep(s, t, w');
    }
  }

  /** A listing shows every channel: whatever is missing from it is gone for good. */
  lemma ListWorker(job: Job, g: Shared, t: Token, w: Worker)
    requires SharedInv(job, g) && WorkerInv(job, g, t, w) && w.pc.ListChannels? && !w.stopped
    ensures WorkerInv(job, g, t, w.(snap := Looks(g.server), listedAt := g.moves, pc := RowStart))
  {
    var w' := w.(snap := Looks(g.server), listedAt := g.moves, pc := RowStart);
    forall q ensures LocalInv(job, g, w', q) {
      assert LocalInv(job, g, w, q) && BornInv(job, g, q);
    }
    assert LocalCids(w') == LocalCids(w);
    forall c ensures SeenIn(g, w'.snap, c) {
    }
  }

  lemma ListHolder(job: Job, g: Shared, w: Worker)
    requires HolderInv(job, g, w) && w.pc.ListChannels?
    ensures HolderInv(job, g, w.(snap := Looks(g.server), listedAt := g.moves, pc := RowStart))
  {
    var w' := w.(snap := Looks(g.server), listedAt := g.moves, pc := RowStart);
    forall q ensures SameAhead(g, w', q) {
      assert SameAhead(g, w, q);
    }
    forall q ensures Finished(g, w', q) {
      assert Finished(g, w, q);
    }
  }

  /** The loaded copy of the current row changes, at most by a channel id now known. */
  lemma RowData(job: Job, g: Shared, t: Token, w: Worker, w': Worker, row: Row)
    requires WorkerInv(job, g, t, w) && OnListing(w.pc) && 0 <= w.idx < |w.rows|
    requires w'.kind == w.kind && w'.idx == w.idx && w'.snap == w.snap && w'.listedAt == w.listedAt
    requires w'.parents == w.parents && w'.siblings == w.siblings && w'.rows == w.rows[w.idx := row]
    requires row.image == w.rows[w.idx].image
    requires row.cid != w.rows[w.idx].cid ==>
               row.cid.Some? && BornCid(g, w.idx, row.cid.value) && row.cid.value in w.snap
    requires InRow(w'.pc) && w.kind == Resume ==>
               job.depths[w.idx] in w.parents && row.parentCid == w.parents[job.depths[w.idx]]
    ensures forall q :: LocalInv(job, g, w', q)
    ensures TreeInv(job, w') && QuietInv(g, w')
  {
    forall q ensures LocalInv(job, g, w', q) {
      assert LocalInv(job, g, w, q);
    }
    assert LocalCids(w') == LocalCids(w);
    forall c ensures SeenIn(g, w'.snap, c) || w.listedAt != g.moves {
      assert w.listedAt == g.moves ==> SeenIn(g, w.snap, c);
    }
  }

  lemma ResumeRowInv(s: State, t: Token)
    requires Inv(s) && t < |s.workers| && s.workers[t].pc.RowStart? && s.workers[t].kind == Resume
    ensures Inv(ResumeRow(s, t))
  {
    var w := s.workers[t];
    if 0 <= w.idx < |w.rows| && s.job.depths[w.idx] in w.parents && Held(s.g, t)
       && (w.parents[s.job.depths[w.idx]].None? || w.parents[s.job.depths[w.idx]].value in w.snap) {
      ResumeRowBegins(s, t);
    } else {
      LeaveLoop(s, t, w.Go(BodyDone(!(0 <= w.idx < |w.rows|))));
    }
  }

  lemma ResumeRowBegins(s: State, t: Token)
    requires Inv(s) && t < |s.workers| && Held(s.g, t)
    requires var w := s.workers[t];
      && w.pc.RowStart? && w.kind == Resume
      && 0 <= w.idx < |w.rows| == |s.job.depths| && s.job.depths[w.idx] in w.parents
      && (w.parents[s.job.depths[w.idx]].Some? ==> w.parents[s.job.depths[w.idx]].value in w.snap)
    ensures var w := s.workers[t];
      var row := w.rows[w.idx].(parentCid := w.parents[s.job.depths[w.idx]]);
      Inv(s.With(Renew(s.g), t, w.Local(row).Go(WriteParent)))
  {
    var w := s.workers[t];
    var row := w.rows[w.idx].(parentCid := w.parents[s.job.depths[w.idx]]);
    var w' := w.Local(row).Go(WriteParent);
    RowData(s.job, s.g, t, w, w', row);
    HolderRow(s.job, s.g, w, w', row);
    RenewStep(s, t, w');
  }

  /** The holder changes the parent of its loaded row. */
  lemma HolderRow(job: Job, g: Shared, w: Worker, w': Worker, row: Row)
    requires HolderInv(job, g, w) && ShapeInv(job, w) && w.pc.RowStart? && 0 <= w.idx < |w.rows|
    requires w' == w.Local(row).Go(WriteParent)
    requires row == w.rows[w.idx].(parentCid := row.parentCid)
    ensures HolderInv(job, g, w')
  {
    forall q ensures SameAhead(g, w', q) {
      assert SameAhead(g, w, q);
    }
    forall q ensures Finished(g, w', q) {
      assert Finished(g, w, q);
    }
  }

  lemma UndoRowInv(s: State, t: Token)
    requires Inv(s) && t < |s.workers| && s.workers[t].pc.RowStart? && s.workers[t].kind == Undo
    ensures Inv(UndoRow(s, t))
  {
    var w := s.workers[t];
    if !(0 <= w.idx < |w.rows|) {
      LeaveLoop(s, t, w.Go(BodyDone(true)));
    } else if w.rows[w.idx].status == Deleted {
      UndoSkip(s, t);
    } else if Held(s.g, t) {
      UndoRowBegins(s, t);
    } else {
      CatchStep(s, t, w.Catch());
    }
  }

  lemma UndoRowBegins(s: State, t: Token)
    requires Inv(s) && t < |s.workers| && Held(s.g, t)
    requires var w := s.workers[t];
      w.pc.RowStart? && w.kind == Undo && 0 <= w.idx < |w.rows| && w.rows[w.idx].status != Deleted
    ensures var w := s.workers[t]; Inv(s.With(Renew(s.g), t, w.Go(Identify(Candidates(w), []))))
  {
    var w := s.workers[t];
    var w' := w.Go(Identify(Candidates(w), []));
    BeginShape(s.job, s.g, t, w);
    WorkerTo(s.job, s.g, t, w, w');
    HolderTo(s.job, s.g, w, w');
    RenewStep(s, t, w');
  }

  lemma BeginShape(job: Job, g: Shared, t: Token, w: Worker)
    requires ShapeInv(job, w)
    requires w.pc.RowStart? && w.kind == Undo && 0 <= w.idx < |w.rows| && w.rows[w.idx].status != Deleted
    ensures var w' := w.Go(Identify(Candidates(w), []));
      SameData(w, w') && ShapeInv(job, w') && PcInv(job, g, t, w')
  {
  }

  /** A row already deleted is passed over. */
  lemma UndoSkip(s: State, t: Token)
    requires Inv(s) && t < |s.workers|
    requires var w := s.workers[t];
      w.pc.RowStart? && w.kind == Undo && 0 <= w.idx < |w.rows| && w.rows[w.idx].status == Deleted
    ensures Inv(s.Put(t, s.workers[t].(idx := s.workers[t].idx - 1)))
  {
    var w := s.workers[t];
    var w' := w.(idx := w.idx - 1);
    NextDown(s.job, s.g, t, w, w');
    if Held(s.g, t) {
      assert SameAhead(s.g, w, w.idx);
      HolderDown(s.job, s.g, w, w');
    }
    LocalStep(s, t, w');
  }

  /** Undo goes on with the next row. */
  lemma NextDown(job: Job, g: Shared, t: Token, w: Worker, w': Worker)
    requires WorkerInv(job, g, t, w) && w.kind == Undo && 0 <= w.idx < |w.rows| && OnListing(w.pc)
    requires w' == w.(idx := w.idx - 1, pc := RowStart, failed := w'.failed)
    requires w.flight == NoFlight || w.stopped
    requires w.outer != Closing(true)
    ensures WorkerInv(job, g, t, w')
  {
    forall q ensures LocalInv(job, g, w', q) {
      assert LocalInv(job, g, w, q);
    }
    forall c ensures SeenIn(g, w'.snap, c) || w.listedAt != g.moves {
      assert w.listedAt == g.moves ==> SeenIn(g, w.snap, c);
    }
  }

  /** ... having finished this one, or noted its failure. */
  lemma HolderDown(job: Job, g: Shared, w: Worker, w': Worker)
    requires HolderInv(job, g, w) && ShapeInv(job, w) && w.kind == Undo && 0 <= w.idx < |w.rows| && OnListing(w.pc)
    requires w' == w.(idx := w.idx - 1, pc := RowStart, failed := w'.failed)
    requires w.failed ==> w'.failed
    requires w'.failed || (w.idx < |g.rows| ==> g.rows[w.idx].status == Deleted)
    ensures HolderInv(job, g, w')
  {
    forall q ensures SameAhead(g, w', q) {
      assert SameAhead(g, w, q);
    }
    forall q ensures Finished(g, w', q) {
      assert Finished(g, w, q);
    }
  }

  /** The three row writes that leave the loaded data alone. */
  predicate WriteNext(w: Worker, next: Pc) {
    || (w.pc.WriteParent? && 0 <= w.idx < |w.rows| && next == Identify(Candidates(w), []))
    || (w.pc.WriteCid? && next == ImageLease)
    || (w.pc.WriteIntent? && next == DeleteLease)
  }

  function Wrote(g: Shared, p: int, row: Row): Shared
    requires 0 <= p < |g.rows|
  {
    g.(rows := g.rows[p := row])
  }

  predicate RowWritten(w: Worker, was: Row, row: Row, loaded: Row) {
    match w.pc
    case WriteParent => row == was.(parentCid := loaded.parentCid)
    case WriteCid => row == was.(cid := loaded.cid, status := Created)
    case WriteIntent => row == was.(cid := loaded.cid, status := Deleting)
    case _ => false
  }

  lemma WriteRow(job: Job, g: Shared, w: Worker, row: Row)
    requires ShapeInv(job, w) && (w.pc.WriteParent? || w.pc.WriteCid? || w.pc.WriteIntent?)
    requires |g.rows| == |g.applied| == |w.rows| && RowInv(job, g, w.idx) && LocalInv(job, g, w, w.idx)
    requires HolderInv(job, g, w) && RowWritten(w, g.rows[w.idx], row, w.rows[w.idx])
    ensures RowInv(job, Wrote(g, w.idx, row), w.idx) && RowGrows(g, Wrote(g, w.idx, row), w.idx)
  {
  }

  lemma WriteShape(job: Job, g: Shared, t: Token, w: Worker, next: Pc)
    requires ShapeInv(job, w) && PcInv(job, g, t, w) && WriteNext(w, next)
    ensures SameData(w, w.Go(next)) && ShapeInv(job, w.Go(next))
    ensures next.Identify? ==> PcInv(job, g, t, w.Go(next))
  {
  }

  lemma WriteWorker(s: State, t: Token, row: Row, next: Pc)
    requires Inv(s) && t < |s.workers| && Held(s.g, t)
    requires var w := s.workers[t];
      && WriteNext(w, next)
      && RowWritten(w, s.g.rows[w.idx], row, w.rows[w.idx])
    ensures var w := s.workers[t]; WorkerInv(s.job, Wrote(s.g, w.idx, row), t, w.Go(next))
  {
    var w := s.workers[t];
    HolderOf(s, t);
    var g' := Wrote(s.g, w.idx, row);
    WriteRow(s.job, s.g, w, row);
    KnownAfterWrite(s, t, g');
    WriteTo(s.job, g', t, w, next);
  }

  lemma WriteTo(job: Job, g: Shared, t: Token, w: Worker, next: Pc)
    requires WorkerInv(job, g, t, w) && WriteNext(w, next)
    requires next.DeleteLease? ==> w.rows[w.idx].cid.Some? && Intent(g, w.idx, w.rows[w.idx].cid.value)
    ensures WorkerInv(job, g, t, w.Go(next))
  {
    WriteShape(job, g, t, w, next);
    WorkerTo(job, g, t, w, w.Go(next));
  }

  lemma WriteGo(s: State, t: Token, row: Row, next: Pc)
    requires Inv(s) && t < |s.workers| && Held(s.g, t)
    requires var w := s.workers[t];
      && WriteNext(w, next)
      && RowWritten(w, s.g.rows[w.idx], row, w.rows[w.idx])
    ensures var w := s.workers[t]; Inv(s.With(Wrote(s.g, w.idx, row), t, w.Go(next)))
  {
    var w := s.workers[t];
    HolderOf(s, t);
    var g' := Wrote(s.g, w.idx, row);
    WriteRow(s.job, s.g, w, row);
    WriteWorker(s, t, row, next);
    HolderGo(s.job, s.g, g', w, next);
    WriteStep(s, t, g', w.Go(next));
  }

  lemma HolderGo(job: Job, g: Shared, g': Shared, w: Worker, next: Pc)
    requires HolderInv(job, g, w) && WriteNext(w, next) && RowChange(g, g', w.idx) && g'.run == g.run
    requires ShapeInv(job, w) && |w.rows| == |g.rows|
    requires RowWritten(w, g.rows[w.idx], g'.rows[w.idx], w.rows[w.idx])
    ensures HolderInv(job, g', w.Go(next))
  {
    assert SameAhead(g, w, w.idx) && Finished(g, w, w.idx);
    HolderWrites(job, g, g', w, w.Go(next));
  }

  lemma WriteParentInv(s: State, t: Token)
    requires Inv(s) && t < |s.workers| && s.workers[t].pc.WriteParent?
    ensures Inv(WriteParentStep(s, t))
  {
    var w := s.workers[t];
    if Held(s.g, t) {
      WriteGo(s, t, s.g.rows[w.idx].(parentCid := w.rows[w.idx].parentCid), Identify(Candidates(w), []));
    } else {
      CatchStep(s, t, w.Catch());
    }
  }

  lemma WriteCidInv(s: State, t: Token)
    requires Inv(s) && t < |s.workers| && s.workers[t].pc.WriteCid?
    ensures Inv(WriteCidStep(s, t))
  {
    var w := s.workers[t];
    if Held(s.g, t) {
      WriteGo(s, t, s.g.rows[w.idx].(cid := w.rows[w.idx].cid, status := Created), ImageLease);
    } else {
      CatchStep(s, t, w.Catch());
    }
  }

  lemma WriteIntentInv(s: State, t: Token)
    requires Inv(s) && t < |s.workers| && s.workers[t].pc.WriteIntent?
    ensures Inv(WriteIntentStep(s, t))
  {
    var w := s.workers[t];
    if Held(s.g, t) {
      WriteGo(s, t, s.g.rows[w.idx].(cid := w.rows[w.idx].cid, status := Deleting), DeleteLease);
    } else {
      CatchStep(s, t, w.Catch());
    }
  }

  lemma LatchInv(s: State, t: Token)
    requires Inv(s) && t < |s.workers| && s.workers[t].pc.Latch?
    ensures Inv(LatchStep(s, t))
  {
    var w := s.workers[t];
    if Held(s.g, t) {
      LatchHeld(s, t);
    } else {
      CatchStep(s, t, w.Catch());
    }
  }

  function LatchedShared(g: Shared, t: Token, p: nat): Shared
    requires p < |g.rows|
  {
    g.(rows := g.rows[p := g.rows[p].(status := Creating)], latchedBy := g.latchedBy[p := t])
  }

  /** Latching is new: no earlier worker has announced this row's creation. */
  lemma LatchRow(job: Job, g: Shared, t: Token, w: Worker)
    requires ShapeInv(job, w) && PcInv(job, g, t, w) && w.pc.Latch?
    requires |g.rows| == |g.applied| == |w.rows| && RowInv(job, g, w.idx)
    requires HolderInv(job, g, w)
    ensures var g' := LatchedShared(g, t, w.idx);
      && w.idx !in g.latchedBy
      && RowChange(g, g', w.idx) && RowInv(job, g', w.idx) && RowGrows(g, g', w.idx)
      && Ticket(g', t, w.idx)
  {
    assert SameAhead(g, w, w.idx);
  }

  lemma LatchWorker(s: State, t: Token)
    requires Inv(s) && t < |s.workers| && s.workers[t].pc.Latch? && Held(s.g, t)
    ensures var w := s.workers[t];
      WorkerInv(s.job, LatchedShared(s.g, t, w.idx), t,
                w.Local(w.rows[w.idx].(status := Creating)).Go(CreateLease))
  {
    var w := s.workers[t];
    HolderOf(s, t);
    var g' := LatchedShared(s.g, t, w.idx);
    LatchRow(s.job, s.g, t, w);
    KnownAfterWrite(s, t, g');
    LatchKnown(s.job, g', t, w);
  }

  lemma LatchKnown(job: Job, g: Shared, t: Token, w: Worker)
    requires WorkerInv(job, g, t, w) && w.pc.Latch? && Ticket(g, t, w.idx)
    ensures WorkerInv(job, g, t, w.Local(w.rows[w.idx].(status := Creating)).Go(CreateLease))
  {
    var row := w.rows[w.idx].(status := Creating);
    RowData(job, g, t, w, w.Local(row).Go(CreateLease), row);
  }

  lemma LatchHeld(s: State, t: Token)
    requires Inv(s) && t < |s.workers| && s.workers[t].pc.Latch? && Held(s.g, t)
    ensures Inv(LatchStep(s, t))
  {
    var w := s.workers[t];
    HolderOf(s, t);
    var g' := LatchedShared(s.g, t, w.idx);
    var w' := w.Local(w.rows[w.idx].(status := Creating)).Go(CreateLease);
    LatchRow(s.job, s.g, t, w);
    LatchWorker(s, t);
    LatchHolder(s.job, s.g, t, w);
    WriteStep(s, t, g', w');
  }

  lemma LatchHolder(job: Job, g: Shared, t: Token, w: Worker)
    requires ShapeInv(job, w) && HolderInv(job, g, w) && w.pc.Latch? && |g.rows| == |w.rows|
    requires RowChange(g, LatchedShared(g, t, w.idx), w.idx)
    ensures HolderInv(job, LatchedShared(g, t, w.idx),
                      w.Local(w.rows[w.idx].(status := Creating)).Go(CreateLease))
  {
    var g' := LatchedShared(g, t, w.idx);
    var w' := w.Local(w.rows[w.idx].(status := Creating)).Go(CreateLease);
    forall q ensures SameAhead(g', w', q) {
      assert SameAhead(g, w, q);
    }
    forall q ensures Finished(g', w', q) {
      assert Finished(g, w, q);
    }
  }
}
