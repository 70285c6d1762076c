/** Leases, commands and their replies keep the invariant. */
module RunCommands {
  import opened Wrappers
  import opened TreeBuilders
  import opened RunMachine
  import opened RunInvariant
  import opened RunFrames

  predicate LeasePc(pc: Pc) {
    pc.CreateLease? || pc.CidLease? || pc.ImageLease? || pc.EditLease? || pc.IntentLease? || pc.DeleteLease?
  }

  lemma LeaseGo(s: State, t: Token)
    requires Inv(s) && t < |s.workers| && LeasePc(s.workers[t].pc)
    ensures Inv(AssertLease(s, t, s.workers[t].Go(LeaseNext(s.workers[t].pc))))
  {
    var w := s.workers[t];
    if Held(s.g, t) {
      LeaseRenews(s, t);
    } else {
      CatchStep(s, t, w.Catch());
    }
  }

  lemma LeaseRenews(s: State, t: Token)
    requires Inv(s) && t < |s.workers| && LeasePc(s.workers[t].pc) && Held(s.g, t)
    ensures Inv(s.With(Renew(s.g), t, s.workers[t].Go(LeaseNext(s.workers[t].pc))))
  {
    var w := s.workers[t];
    var w' := w.Go(LeaseNext(w.pc));
    LeaseShape(s.job, s.g, t, w);
    WorkerTo(s.job, s.g, t, w, w');
    HolderTo(s.job, s.g, w, w');
    RenewStep(s, t, w');
  }

  lemma LeaseShape(job: Job, g: Shared, t: Token, w: Worker)
    requires ShapeInv(job, w) && PcInv(job, g, t, w) && LeasePc(w.pc)
    ensures var w' := w.Go(LeaseNext(w.pc));
      && SameData(w, w') && ShapeInv(job, w') && PcInv(job, g, t, w')
      && (HolderPcInv(job, g, w) ==> HolderPcInv(job, g, w'))
  {
  }

  // ------------------------------------------------------------ sending

  /** Only the values below row `p` matter for its place. */
  lemma LinkFromLocal(job: Job, g: Shared, w: Worker)
    requires ShapeInv(job, w) && TreeInv(job, w) && w.pc.SendCreate?
    requires forall q :: LocalInv(job, g, w, q)
    ensures LinkOk(job, g.born, w.idx, CreateFor(w).link)
  {
    var here, born := LocalCids(w), BornCids(g.born);
    LookUp(job.depths, here, job.root, w.idx, w.parents, w.siblings);
    forall q: nat | q < w.idx ensures q in here && q in born && born[q] == here[q] {
      assert LocalInv(job, g, w, q);
    }
  }

  lemma SendCreateInv(s: State, t: Token)
    requires Inv(s) && t < |s.workers| && s.workers[t].pc.SendCreate?
    ensures var w := s.workers[t]; Inv(SendStep(s, t, CreateFor(w), AwaitCreate))
  {
    var w := s.workers[t];
    if w.stopped {
      CatchStep(s, t, w.Catch());
    } else {
      LinkFromLocal(s.job, s.g, w);
      TurnTo(s, t, w.(flight := Sent(CreateFor(w)), pc := AwaitCreate));
    }
  }

  lemma SendEditInv(s: State, t: Token)
    requires Inv(s) && t < |s.workers| && s.workers[t].pc.SendEdit?
    ensures var w := s.workers[t];
      Inv(SendStep(s, t, EditCmd(w.idx, w.rows[w.idx].cid.value), AwaitEdit))
  {
    var w := s.workers[t];
    if w.stopped {
      CatchStep(s, t, w.Catch());
    } else {
      EditSent(s, t);
    }
  }

  lemma EditSent(s: State, t: Token)
    requires Inv(s) && t < |s.workers| && s.workers[t].pc.SendEdit? && !s.workers[t].stopped
    ensures var w := s.workers[t];
      Inv(s.Put(t, w.(flight := Sent(EditCmd(w.idx, w.rows[w.idx].cid.value)), pc := AwaitEdit)))
  {
    var w := s.workers[t];
    assert LocalInv(s.job, s.g, w, w.idx);
    TurnTo(s, t, w.(flight := Sent(EditCmd(w.idx, w.rows[w.idx].cid.value)), pc := AwaitEdit));
  }

  lemma SendDeleteInv(s: State, t: Token)
    requires Inv(s) && t < |s.workers| && s.workers[t].pc.SendDelete?
    ensures var w := s.workers[t];
      Inv(SendStep(s, t, DeleteCmd(w.idx, w.rows[w.idx].cid.value), AwaitDelete))
  {
    var w := s.workers[t];
    if w.stopped {
      CatchStep(s, t, w.Catch());
    } else {
      assert LocalInv(s.job, s.g, w, w.idx);
      TurnTo(s, t, w.(flight := Sent(DeleteCmd(w.idx, w.rows[w.idx].cid.value)), pc := AwaitDelete));
    }
  }

  // ------------------------------------------------------------ replies

  lemma AwaitCreateInv(s: State, t: Token)
    requires Inv(s) && t < |s.workers| && s.workers[t].pc.AwaitCreate?
    ensures Inv(AwaitCreateStep(s, t))
  {
    var w := s.workers[t];
    match w.flight {
      case Applied(_, c) =>
        CreatedWorker(s.job, s.g, t, w);
        if Held(s.g, t) {
          CreatedHolder(s.job, s.g, w);
        }
        LocalStep(s, t, WithCreated(s.job, w, c));
      case Refused(_) => CatchStep(s, t, w.(flight := NoFlight).Catch());
      case _ =>
    }
  }

  /** The worker learns the id of the channel it had created. */
  function WithCreated(job: Job, w: Worker, c: Cid): Worker
    requires 0 <= w.idx < |w.rows| && w.idx < |job.names|
  {
    var row := w.rows[w.idx];
    w.Local(row.(cid := Some(c)))
     .(snap := w.snap[c := Listed(job.names[w.idx], row.parentCid, RowUrl(w.idx))], flight := NoFlight, pc := CidLease)
  }

  lemma CreatedWorker(job: Job, g: Shared, t: Token, w: Worker)
    requires WorkerInv(job, g, t, w) && w.pc.AwaitCreate? && w.flight.Applied?
    ensures WorkerInv(job, g, t, WithCreated(job, w, w.flight.cid))
  {
    var w' := WithCreated(job, w, w.flight.cid);
    forall q ensures LocalInv(job, g, w', q) {
      assert LocalInv(job, g, w, q);
    }
    assert LocalCids(w') == LocalCids(w);
  }

  lemma CreatedHolder(job: Job, g: Shared, w: Worker)
    requires ShapeInv(job, w) && HolderInv(job, g, w) && w.pc.AwaitCreate? && w.flight.Applied?
    ensures HolderInv(job, g, WithCreated(job, w, w.flight.cid))
  {
    var w' := WithCreated(job, w, w.flight.cid);
    forall q ensures SameAhead(g, w', q) {
      assert SameAhead(g, w, q);
    }
    forall q ensures Finished(g, w', q) {
      assert Finished(g, w, q);
    }
  }

  lemma AwaitEditInv(s: State, t: Token)
    requires Inv(s) && t < |s.workers| && s.workers[t].pc.AwaitEdit?
    ensures Inv(AwaitEditStep(s, t))
  {
    var w := s.workers[t];
    match w.flight {
      case Applied(_, _) => EditReplied(s, t);
      case Refused(_) => CatchStep(s, t, w.(flight := NoFlight).Catch());
      case _ =>
    }
  }

  lemma EditReplied(s: State, t: Token)
    requires Inv(s) && t < |s.workers| && s.workers[t].pc.AwaitEdit? && s.workers[t].flight.Applied?
    ensures Inv(s.Put(t, s.workers[t].(flight := NoFlight, pc := WriteSaved)))
  {
    TurnTo(s, t, s.workers[t].(flight := NoFlight, pc := WriteSaved));
  }

  lemma AwaitDeleteInv(s: State, t: Token)
    requires Inv(s) && t < |s.workers| && s.workers[t].pc.AwaitDelete?
    ensures Inv(AwaitDeleteStep(s, t))
  {
    var w := s.workers[t];
    match w.flight {
      case Applied(_, c) =>
        DeletedWorker(s.job, s.g, t, w);
        if Held(s.g, t) {
          DeletedHolder(s.job, s.g, w);
        }
        LocalStep(s, t, w.(snap := w.snap - {c}, flight := NoFlight, pc := MarkDeleted));
      case Refused(_) => CatchStep(s, t, w.(flight := NoFlight).Catch());
      case _ =>
    }
  }

  lemma DeletedWorker(job: Job, g: Shared, t: Token, w: Worker)
    requires WorkerInv(job, g, t, w) && w.pc.AwaitDelete? && w.flight.Applied?
    ensures WorkerInv(job, g, t, w.(snap := w.snap - {w.flight.cid}, flight := NoFlight, pc := MarkDeleted))
  {
    var w' := w.(snap := w.snap - {w.flight.cid}, flight := NoFlight, pc := MarkDeleted);
    forall q ensures LocalInv(job, g, w', q) {
      assert LocalInv(job, g, w, q);
    }
    if w'.listedAt == g.moves {
      forall c ensures SeenIn(g, w'.snap, c) {
        assert SeenIn(g, w.snap, c);
      }
    }
  }

  lemma DeletedHolder(job: Job, g: Shared, w: Worker)
    requires ShapeInv(job, w) && HolderInv(job, g, w) && w.pc.AwaitDelete? && w.flight.Applied?
    ensures HolderInv(job, g, w.(snap := w.snap - {w.flight.cid}, flight := NoFlight, pc := MarkDeleted))
  {
    var w' := w.(snap := w.snap - {w.flight.cid}, flight := NoFlight, pc := MarkDeleted);
    forall q ensures SameAhead(g, w', q) {
      assert SameAhead(g, w, q);
    }
    forall q ensures Finished(g, w', q) {
      assert Finished(g, w, q);
    }
  }

  // ------------------------------------------------------------ the stored image

  function WithImage(g: Shared, c: Cid, b: Bytes): Shared {
    g.(images := g.images[c := b])
  }

  /** Storing a row's prepared image under the row's channel hurts no other row. */
  lemma ImageWrite(job: Job, g: Shared, p: int, c: Cid)
    requires SharedInv(job, g) && BornCid(g, p, c) && 0 <= p < |job.images|
    ensures SharedInv(job, WithImage(g, c, job.images[p])) && Grows(g, WithImage(g, c, job.images[p]))
    ensures forall t :: Unspent(g, WithImage(g, c, job.images[p]), t)
    ensures forall q :: KeptGrows(job, g, WithImage(g, c, job.images[p]), q)
  {
    var g' := WithImage(g, c, job.images[p]);
    assert p in BornCids(g.born) && BornInv(job, g, p);
    forall q ensures RowInv(job, g', q) {
      assert RowInv(job, g, q);
      assert q in g.born ==> q in BornCids(g.born);
    }
    forall q ensures BornInv(job, g', q) {
      assert BornInv(job, g, q);
      assert q in g.born ==> q in BornCids(g.born);
    }
    forall d ensures ChannelInv(g', d) {
      assert ChannelInv(g, d);
    }
    forall q ensures KeptGrows(job, g, g', q) {
      assert q in g.born ==> q in BornCids(g.born);
    }
    GrowsRefl(g, g');
  }

  lemma SaveImageInv(s: State, t: Token)
    requires Inv(s) && t < |s.workers| && s.workers[t].pc.SaveImage?
    ensures Inv(SaveImageStep(s, t))
  {
    var w := s.workers[t];
    var c := w.rows[w.idx].cid.value;
    assert LocalInv(s.job, s.g, w, w.idx);
    if w.rows[w.idx].image.Some? {
      SaveImageStores(s, t, c);
    } else if c in s.g.images {
      ImageFound(s, t, c);
    } else {
      CatchStep(s, t, w.Catch());
    }
  }

  /** The prepared image was stored before: the channel still has it. */
  lemma ImageFound(s: State, t: Token, c: Cid)
    requires Inv(s) && t < |s.workers| && s.workers[t].pc.SaveImage? && c in s.g.images
    requires var w := s.workers[t]; w.rows[w.idx].cid == Some(c) && BornCid(s.g, w.idx, c)
    ensures Inv(s.Put(t, s.workers[t].Go(EditLease)))
  {
    var w := s.workers[t];
    if Held(s.g, t) {
      assert BornInv(s.job, s.g, w.idx);
      FoundHolder(s.job, s.g, c, w);
    }
    TurnTo(s, t, w.Go(EditLease));
  }

  lemma FoundHolder(job: Job, g: Shared, c: Cid, w: Worker)
    requires ShapeInv(job, w) && HolderInv(job, g, w) && BornInv(job, g, w.idx)
    requires w.pc.SaveImage? && c in g.images && w.rows[w.idx].cid == Some(c) && BornCid(g, w.idx, c)
    ensures HolderMay(g, w, w.Go(EditLease)) && HolderPcInv(job, g, w.Go(EditLease))
  {
  }

  lemma SaveImageStores(s: State, t: Token, c: Cid)
    requires Inv(s) && t < |s.workers| && s.workers[t].pc.SaveImage?
    requires var w := s.workers[t]; w.rows[w.idx].cid == Some(c) && BornCid(s.g, w.idx, c)
    ensures var w := s.workers[t];
      Inv(s.With(WithImage(s.g, c, s.job.images[w.idx]), t, w.Go(EditLease)))
  {
    var w := s.workers[t];
    var g' := WithImage(s.g, c, s.job.images[w.idx]);
    ImageWrite(s.job, s.g, w.idx, c);
    StoredWorker(s.job, s.g, g', t, w);
    if Held(s.g, t) {
      StoredHolder(s.job, s.g, c, w);
    } else {
      LeaseStable(s, t, g', w.Go(EditLease));
    }
    Compose(s, t, g', w.Go(EditLease));
  }

  lemma StoredWorker(job: Job, g: Shared, g': Shared, t: Token, w: Worker)
    requires SharedInv(job, g) && Grows(g, g') && Unspent(g, g', t)
    requires WorkerInv(job, g, t, w) && w.pc.SaveImage?
    ensures WorkerInv(job, g', t, w.Go(EditLease))
  {
    WorkerStable(job, g, g', t, w);
    WorkerTo(job, g', t, w, w.Go(EditLease));
  }

  lemma StoredHolder(job: Job, g: Shared, c: Cid, w: Worker)
    requires SharedInv(job, g) && ShapeInv(job, w) && HolderInv(job, g, w) && w.pc.SaveImage?
    requires w.rows[w.idx].cid == Some(c) && BornCid(g, w.idx, c)
    requires forall q :: LocalInv(job, g, w, q)
    ensures HolderInv(job, WithImage(g, c, job.images[w.idx]), w.Go(EditLease))
  {
    var g' := WithImage(g, c, job.images[w.idx]);
    ImageWrite(job, g, w.idx, c);
    HolderStable(job, g, g', w);
    HolderTo(job, g', w, w.Go(EditLease));
  }
}
