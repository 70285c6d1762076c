/** How the invariant is carried over one step: what a step must show about the shared state,
    the acting worker and the lease holder, and what then follows for everybody else. */
module RunFrames {
  import opened RunMachine
  import opened RunInvariant

  /** A step of worker `t` keeps the invariant if it keeps its own part of it. */
  lemma Compose(s: State, t: Token, g': Shared, w': Worker)
    requires Inv(s) && t < |s.workers|
    requires SharedInv(s.job, g') && Grows(s.g, g')
    requires forall u :: u != t ==> Unspent(s.g, g', u)
    requires WorkerInv(s.job, g', t, w')
    requires LeaseInv(s.With(g', t, w'))
    ensures Inv(s.With(g', t, w'))
  {
    var s' := s.With(g', t, w');
    forall u | 0 <= u < |s'.workers| ensures WorkerInv(s'.job, s'.g, u, s'.workers[u]) {
      if u != t {
        WorkerStable(s.job, s.g, g', u, s.workers[u]);
      }
    }
  }

  /** Nothing shared changes. */
  lemma LocalStep(s: State, t: Token, w': Worker)
    requires Inv(s) && t < |s.workers|
    requires WorkerInv(s.job, s.g, t, w')
    requires Held(s.g, t) ==> HolderInv(s.job, s.g, w')
    ensures Inv(s.Put(t, w'))
  {
  }

  /** The lease holder is the latest worker. */
  lemma HolderOf(s: State, t: Token)
    requires Inv(s) && t < |s.workers| && Held(s.g, t)
    ensures HolderInv(s.job, s.g, s.workers[t]) && WorkerInv(s.job, s.g, t, s.workers[t])
  {
  }

  predicate KeptGrows(job: Job, g: Shared, g': Shared, p: int) {
    0 <= p < |job.images| && p in g.born && ImageKept(job, g, p, g.born[p].cid) ==>
      ImageKept(job, g', p, g.born[p].cid)
  }

  /** The holder while the shared state changes without touching rows or run. */
  lemma HolderStable(job: Job, g: Shared, g': Shared, w: Worker)
    requires HolderInv(job, g, w) && ShapeInv(job, w)
    requires g'.rows == g.rows && PhaseOk(g'.run.status, w)
    requires forall q :: LocalInv(job, g, w, q)
    requires forall p :: KeptGrows(job, g, g', p)
    ensures HolderInv(job, g', w)
  {
    forall q ensures SameAhead(g', w, q) {
      assert SameAhead(g, w, q);
    }
    forall q ensures Finished(g', w, q) {
      assert Finished(g, w, q);
    }
    if ImagePc(w.pc) {
      assert LocalInv(job, g, w, w.idx) && KeptGrows(job, g, g', w.idx);
    }
  }

  /** The lease keeps its holder while others change the shared state. */
  lemma LeaseStable(s: State, t: Token, g': Shared, w': Worker)
    requires Inv(s) && t < |s.workers| && !Held(s.g, t)
    requires g'.rows == s.g.rows && g'.run == s.g.run
    requires forall p :: KeptGrows(s.job, s.g, g', p)
    ensures LeaseInv(s.With(g', t, w'))
  {
    if s.g.run.leaseToken.Some? {
      var holder := |s.workers| - 1;
      assert WorkerInv(s.job, s.g, holder, s.workers[holder]);
      HolderStable(s.job, s.g, g', s.workers[holder]);
    }
  }

  // ------------------------------------------------------------ shared changes

  lemma GrowsRefl(g: Shared, g': Shared)
    requires g'.rows == g.rows && g'.server == g.server && g'.used == g.used && g'.born == g.born
    requires g'.latchedBy == g.latchedBy && g'.moves == g.moves && g'.edited == g.edited
    ensures Grows(g, g') && forall t :: Unspent(g, g', t)
  {
  }

  /** Only the run row changes. */
  lemma RunWrite(job: Job, g: Shared, run: RunRow)
    requires SharedInv(job, g)
    requires UndoSide(g.run.status) ==> UndoSide(run.status)
    requires run.status == Completed ==> forall p :: 0 <= p < |g.rows| ==> g.rows[p].status == Saved
    requires run.status == Undone ==> forall p :: 0 <= p < |g.rows| ==> g.rows[p].status == Deleted
    requires run.leaseToken.Some? <==> run.leaseUntil.Some?
    ensures SharedInv(job, g.(run := run)) && Grows(g, g.(run := run))
    ensures forall t :: Unspent(g, g.(run := run), t)
    ensures forall p :: KeptGrows(job, g, g.(run := run), p)
  {
    var g' := g.(run := run);
    forall p ensures RowInv(job, g', p) {
      assert RowInv(job, g, p);
    }
    forall p ensures BornInv(job, g', p) {
      assert BornInv(job, g, p);
    }
    forall c ensures ChannelInv(g', c) {
      assert ChannelInv(g, c);
    }
    GrowsRefl(g, g');
  }

  lemma RenewInv(job: Job, g: Shared)
    requires SharedInv(job, g) && g.run.leaseToken.Some?
    ensures SharedInv(job, Renew(g)) && Grows(g, Renew(g))
    ensures forall t :: Unspent(g, Renew(g), t)
    ensures forall p :: KeptGrows(job, g, Renew(g), p)
  {
    RunWrite(job, g, Renew(g).run);
  }

  /** The holder renews its lease while it moves on. */
  lemma RenewStep(s: State, t: Token, w': Worker)
    requires Inv(s) && t < |s.workers| && Held(s.g, t)
    requires WorkerInv(s.job, s.g, t, w') && HolderInv(s.job, s.g, w')
    ensures Inv(s.With(Renew(s.g), t, w'))
  {
    RenewInv(s.job, s.g);
    WorkerStable(s.job, s.g, Renew(s.g), t, w');
    HolderStable(s.job, s.g, Renew(s.g), w');
    Compose(s, t, Renew(s.g), w');
  }

  /** Row `p` changes, and at most its latch and the stored image of its channel with it. */
  predicate RowChange(g: Shared, g': Shared, p: int) {
    && 0 <= p < |g.rows| == |g'.rows|
    && g' == g.(rows := g'.rows, latchedBy := g'.latchedBy, images := g'.images)
    && g'.rows == g.rows[p := g'.rows[p]]
    && (g'.latchedBy == g.latchedBy
        || (p !in g.latchedBy && p in g'.latchedBy && g'.latchedBy == g.latchedBy[p := g'.latchedBy[p]]))
    && (forall c :: c in g'.images ==> c in g.images && g'.images[c] == g.images[c])
    && (forall c :: c in g.images && c !in g'.images ==> BornCid(g, p, c))
  }

  lemma RowWrite(job: Job, g: Shared, g': Shared, p: int)
    requires SharedInv(job, g) && 0 <= p < |g.rows|
    requires RowChange(g, g', p)
    requires RowInv(job, g', p) && RowGrows(g, g', p)
    requires g.run.status != Completed && g.run.status != Undone
    ensures SharedInv(job, g') && Grows(g, g')
    ensures forall t :: Unspent(g, g', t)
  {
    forall q ensures RowInv(job, g', q) {
      if q != p {
        OtherRow(job, g, g', p, q);
      }
    }
    forall q ensures BornInv(job, g', q) {
      assert BornInv(job, g, q);
    }
    forall c ensures ChannelInv(g', c) {
      assert ChannelInv(g, c);
    }
    forall q ensures RowGrows(g, g', q) {
    }
    forall c ensures ChannelGrows(g, g', c) {
    }
  }

  lemma OtherRow(job: Job, g: Shared, g': Shared, p: int, q: int)
    requires SharedInv(job, g) && 0 <= p < |g.rows| && q != p
    requires RowChange(g, g', p)
    ensures RowInv(job, g', q)
  {
    assert RowInv(job, g, q);
    if 0 <= q < |g.rows| && g.rows[q].cid.Some? {
      assert q in BornCids(g.born);
      assert p in g.born ==> p in BornCids(g.born);
    }
  }

  // ------------------------------------------------------------ the acting worker

  predicate InRow(pc: Pc) {
    ResumePc(pc) || pc.Identify?
  }

  /** The step changes nothing the worker loaded. */
  predicate SameData(w: Worker, w': Worker) {
    && w'.kind == w.kind && w'.idx == w.idx && w'.rows == w.rows && w'.snap == w.snap
    && w'.listedAt == w.listedAt && w'.parents == w.parents && w'.siblings == w.siblings
    && (OnListing(w'.pc) ==> OnListing(w.pc)) && (UsesListing(w') ==> UsesListing(w))
    && (InRow(w'.pc) && w.kind == Resume ==> InRow(w.pc))
  }

  /** What a worker knows at its place in the code depends on this much of it. */
  predicate SamePlace(w: Worker, w': Worker) {
    w'.pc == w.pc && w'.flight == w.flight
  }

  lemma WorkerTo(job: Job, g: Shared, t: Token, w: Worker, w': Worker)
    requires WorkerInv(job, g, t, w) && SameData(w, w')
    requires ShapeInv(job, w')
    requires SamePlace(w, w') || PcInv(job, g, t, w')
    requires w'.flight == w.flight || w'.flight == NoFlight || FlightInv(job, g, t, w')
    ensures WorkerInv(job, g, t, w')
  {
    forall q ensures LocalInv(job, g, w', q) {
      assert LocalInv(job, g, w, q);
    }
    assert LocalCids(w') == LocalCids(w);
    if UsesListing(w') && w'.listedAt == g.moves {
      forall c ensures SeenIn(g, w'.snap, c) {
        assert SeenIn(g, w.snap, c);
      }
    }
  }

  /** The holder moves on within its row, or leaves the loop. */
  lemma HolderTo(job: Job, g: Shared, w: Worker, w': Worker)
    requires HolderInv(job, g, w) && SameData(w, w')
    requires w'.failed == w.failed || w'.failed
    requires w'.outer == w.outer && PhaseOk(g.run.status, w')
    requires forall q :: Ahead(w', q) ==> Ahead(w, q)
    requires HolderPcInv(job, g, w')
    ensures HolderInv(job, g, w')
  {
    forall q ensures SameAhead(g, w', q) {
      assert SameAhead(g, w, q);
    }
    forall q ensures Finished(g, w', q) {
      assert Finished(g, w, q);
    }
  }

  ghost predicate HolderMay(g: Shared, w: Worker, w': Worker) {
    && (w.failed ==> w'.failed)
    && w'.outer == w.outer && PhaseOk(g.run.status, w')
    && (forall q :: Ahead(w', q) ==> Ahead(w, q))
  }

  /** A step that changes nothing shared and nothing loaded. */
  lemma TurnTo(s: State, t: Token, w': Worker)
    requires Inv(s) && t < |s.workers| && SameData(s.workers[t], w')
    requires ShapeInv(s.job, w')
    requires SamePlace(s.workers[t], w') || PcInv(s.job, s.g, t, w')
    requires w'.flight == s.workers[t].flight || w'.flight == NoFlight || FlightInv(s.job, s.g, t, w')
    requires Held(s.g, t) ==> HolderMay(s.g, s.workers[t], w') && HolderPcInv(s.job, s.g, w')
    ensures Inv(s.Put(t, w'))
  {
    var w := s.workers[t];
    WorkerTo(s.job, s.g, t, w, w');
    if Held(s.g, t) {
      HolderTo(s.job, s.g, w, w');
    }
    LocalStep(s, t, w');
  }

  predicate MayCatch(w: Worker, w': Worker) {
    && (RowPc(w.pc) || (w.pc.RowStart? && w.kind == Undo && 0 <= w.idx))
    && w' == w.(stopped := w'.stopped, flight := w'.flight, pc := RowCatch)
    && (w'.flight == w.flight || w'.flight == NoFlight)
    && (w'.flight == NoFlight || w'.stopped)
  }

  /** The row's catch block is reached, with or without the connection stopped. */
  lemma CatchStep(s: State, t: Token, w': Worker)
    requires Inv(s) && t < |s.workers| && MayCatch(s.workers[t], w')
    ensures Inv(s.Put(t, w'))
  {
    CatchShape(s.job, s.workers[t], w');
    if Held(s.g, t) {
      CatchMay(s.g, s.workers[t], w');
    }
    TurnTo(s, t, w');
  }

  lemma CatchShape(job: Job, w: Worker, w': Worker)
    requires ShapeInv(job, w) && MayCatch(w, w')
    ensures ShapeInv(job, w') && SameData(w, w')
  {
  }

  lemma CatchMay(g: Shared, w: Worker, w': Worker)
    requires MayCatch(w, w') && PhaseOk(g.run.status, w)
    ensures HolderMay(g, w, w')
  {
  }

  predicate MayLeave(job: Job, w: Worker, w': Worker) {
    && !w.pc.Load? && !w.pc.BodyDone?
    && w'.pc.BodyDone? && (w.failed ==> w'.failed)
    && w' == w.(pc := w'.pc, failed := w'.failed)
    && (w'.pc.ok ==> w.pc.RowStart? && w.idx == if w.kind == Resume then |job.depths| else -1)
    && (w.flight == NoFlight || w.stopped)
  }

  /** The row loop ends, normally or with an exception. */
  lemma LeaveLoop(s: State, t: Token, w': Worker)
    requires Inv(s) && t < |s.workers| && MayLeave(s.job, s.workers[t], w')
    ensures Inv(s.Put(t, w'))
  {
    LeaveShape(s.job, s.g, s.workers[t], w');
    TurnTo(s, t, w');
  }

  lemma LeaveShape(job: Job, g: Shared, w: Worker, w': Worker)
    requires ShapeInv(job, w) && MayLeave(job, w, w')
    ensures ShapeInv(job, w') && SameData(w, w')
    ensures PhaseOk(g.run.status, w) ==> HolderMay(g, w, w')
  {
  }

  /** The holder writes its current row and moves on. */
  lemma HolderWrites(job: Job, g: Shared, g': Shared, w: Worker, w': Worker)
    requires HolderInv(job, g, w) && w.pc != Load && RowChange(g, g', w.idx)
    requires w'.kind == w.kind && |w'.rows| == |w.rows| == |g.rows|
    requires forall q :: 0 <= q < |w.rows| && q != w.idx ==> w'.rows[q] == w.rows[q]
    requires forall q :: q != w.idx && Ahead(w', q) ==> Ahead(w, q)
    requires SameAhead(g', w', w.idx)
    requires Finished(g', w', w.idx)
    requires match w.kind case Resume => w'.idx <= w.idx + 1 case Undo => w'.idx >= w.idx - 1
    requires w.failed ==> w'.failed
    requires PhaseOk(g'.run.status, w') && HolderPcInv(job, g', w')
    ensures HolderInv(job, g', w')
  {
    forall q ensures SameAhead(g', w', q) {
      assert SameAhead(g, w, q);
    }
    forall q ensures Finished(g', w', q) {
      assert Finished(g, w, q);
    }
  }

  /** A fenced row write goes through. */
  lemma WriteStep(s: State, t: Token, g': Shared, w': Worker)
    requires Inv(s) && t < |s.workers| && Held(s.g, t)
    requires var w := s.workers[t];
      && !w.pc.BodyDone? && RowChange(s.g, g', w.idx)
      && RowInv(s.job, g', w.idx) && RowGrows(s.g, g', w.idx)
    requires WorkerInv(s.job, g', t, w') && HolderInv(s.job, g', w')
    ensures Inv(s.With(g', t, w'))
  {
    RowWrite(s.job, s.g, g', s.workers[t].idx);
    HolderActs(s, t, g', w');
    Compose(s, t, g', w');
  }

  lemma HolderActs(s: State, t: Token, g': Shared, w': Worker)
    requires LeaseInv(s) && t < |s.workers| && Held(s.g, t) && g'.run == s.g.run && HolderInv(s.job, g', w')
    ensures LeaseInv(s.With(g', t, w'))
  {
  }

  /** What the worker knew before its own row write. */
  lemma KnownAfterWrite(s: State, t: Token, g': Shared)
    requires Inv(s) && t < |s.workers| && Held(s.g, t)
    requires var w := s.workers[t];
      && !w.pc.BodyDone? && RowChange(s.g, g', w.idx)
      && RowInv(s.job, g', w.idx) && RowGrows(s.g, g', w.idx)
    ensures WorkerInv(s.job, g', t, s.workers[t]) && SharedInv(s.job, g')
  {
    RowWrite(s.job, s.g, g', s.workers[t].idx);
    WorkerStable(s.job, s.g, g', t, s.workers[t]);
  }
}
