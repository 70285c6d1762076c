/** Identification keeps the invariant: every channel it accepts is the one the run created
    for the row, and undo accepts it only unchanged and childless. */
module RunIdentify {
  import opened Wrappers
  import opened TreeBuilders
  import opened RunMachine
  import opened RunInvariant
  import opened RunFrames
  import opened RunSteps

  lemma IdentifyInv(s: State, t: Token, pick: Cid)
    requires Inv(s) && t < |s.workers| && s.workers[t].pc.Identify?
    ensures Inv(IdentifyStep(s, t, pick))
  {
    var w := s.workers[t];
    var Identify(todo, owned) := w.pc;
    if todo == {} {
      DecideInv(s, t);
    } else if pick in todo && !w.stopped && pick in s.g.server {
      if s.g.server[pick].marker == Some(w.idx) && Unchanged(s.job, w, pick) {
        Accept(s, t, pick);
      } else if s.g.server[pick].marker != Some(w.idx) && w.rows[w.idx].cid.None? {
        PassOver(s, t, pick);
      } else {
        CatchStep(s, t, w.Catch());
      }
    } else if pick in todo {
      CatchStep(s, t, w.Catch());
    }
  }

  /** The marker proves that the run created this channel for this row. */
  lemma Accept(s: State, t: Token, pick: Cid)
    requires Inv(s) && t < |s.workers| && s.workers[t].pc.Identify?
    requires var w := s.workers[t];
      && pick in w.pc.todo && pick in s.g.server && s.g.server[pick].marker == Some(w.idx)
      && Unchanged(s.job, w, pick)
    ensures var w := s.workers[t];
      Inv(s.Put(t, w.Go(Identify(w.pc.todo - {pick}, w.pc.owned + [pick]))))
  {
    var w := s.workers[t];
    var Identify(todo, owned) := w.pc;
    var w' := w.Go(Identify(todo - {pick}, owned + [pick]));
    assert ChannelInv(s.g, pick);
    AcceptPc(s.job, s.g, t, w, pick);
    TurnTo(s, t, w');
  }

  lemma AcceptPc(job: Job, g: Shared, t: Token, w: Worker, pick: Cid)
    requires ShapeInv(job, w) && w.pc.Identify? && PcInv(job, g, t, w)
    requires (forall q :: LocalInv(job, g, w, q))
    requires pick in w.pc.todo && BornCid(g, w.idx, pick) && Unchanged(job, w, pick)
    ensures var w' := w.Go(Identify(w.pc.todo - {pick}, w.pc.owned + [pick]));
      PcInv(job, g, t, w')
  {
    assert LocalInv(job, g, w, w.idx);
    var owned := w.pc.owned + [pick];
    forall o | o in owned ensures BornCid(g, w.idx, o) && o !in w.pc.todo - {pick} {
      assert o in w.pc.owned || o == pick;
    }
  }

  lemma PassOver(s: State, t: Token, pick: Cid)
    requires Inv(s) && t < |s.workers| && s.workers[t].pc.Identify?
    requires var w := s.workers[t]; pick in w.pc.todo && w.rows[w.idx].cid.None?
    ensures var w := s.workers[t]; Inv(s.Put(t, w.Go(Identify(w.pc.todo - {pick}, w.pc.owned))))
  {
    var w := s.workers[t];
    TurnTo(s, t, w.Go(Identify(w.pc.todo - {pick}, w.pc.owned)));
  }

  // ------------------------------------------------------------ the decision

  lemma DecideInv(s: State, t: Token)
    requires Inv(s) && t < |s.workers| && s.workers[t].pc.Identify? && s.workers[t].pc.todo == {}
    ensures var w := s.workers[t]; Inv(s.Put(t, Decide(s.job, w, w.pc.owned)))
  {
    var w := s.workers[t];
    var owned := w.pc.owned;
    if |owned| == 1 {
      Found(s, t);
    } else if |owned| == 0 && w.kind == Resume {
      if w.rows[w.idx].cid.None? && !OutcomeUnknown(w.rows[w.idx].status)
         && !NameTaken(w.snap, w.rows[w.idx].parentCid, s.job.names[w.idx]) {
        TurnTo(s, t, w.Go(Latch));
      } else {
        CatchStep(s, t, w.Catch());
      }
    } else if |owned| == 0 && (w.rows[w.idx].cid.Some? || !OutcomeUnknown(w.rows[w.idx].status)) {
      Missing(s, t);
    } else {
      CatchStep(s, t, w.Catch());
    }
  }

  /** Undo found nothing although nothing is unknown: a recorded channel is gone for good. */
  lemma Missing(s: State, t: Token)
    requires Inv(s) && t < |s.workers| && s.workers[t].pc.Identify?
    requires var w := s.workers[t];
      && w.kind == Undo && w.pc.todo == {} && |w.pc.owned| == 0
      && (w.rows[w.idx].cid.Some? || !OutcomeUnknown(w.rows[w.idx].status))
    ensures Inv(s.Put(t, s.workers[t].Go(MarkDeleted)))
  {
    var w := s.workers[t];
    assert LocalInv(s.job, s.g, w, w.idx);
    TurnTo(s, t, w.Go(MarkDeleted));
  }

  /** Where the code goes on once a channel is accepted. */
  predicate FoundNext(w: Worker, c: Cid, next: Pc) {
    match w.kind
    case Resume => next == CidLease
    case Undo => if HasChild(w.snap, c) then next == RowCatch else next == IntentLease
  }

  function WithCid(w: Worker, c: Cid, next: Pc): Worker
    requires 0 <= w.idx < |w.rows|
  {
    w.Local(w.rows[w.idx].(cid := Some(c))).Go(next)
  }

  /** The one accepted channel becomes the row's channel. */
  lemma Found(s: State, t: Token)
    requires Inv(s) && t < |s.workers| && s.workers[t].pc.Identify?
    requires var w := s.workers[t]; |w.pc.owned| == 1 && w.pc.todo == {}
    ensures var w := s.workers[t]; Inv(s.Put(t, Decide(s.job, w, w.pc.owned)))
  {
    var w := s.workers[t];
    var c := w.pc.owned[0];
    if w.kind == Resume {
      FoundAs(s, t, CidLease);
    } else if HasChild(w.snap, c) {
      FoundAs(s, t, RowCatch);
    } else {
      FoundAs(s, t, IntentLease);
    }
  }

  lemma FoundAs(s: State, t: Token, next: Pc)
    requires Inv(s) && t < |s.workers| && s.workers[t].pc.Identify?
    requires var w := s.workers[t]; |w.pc.owned| == 1 && FoundNext(w, w.pc.owned[0], next)
    ensures var w := s.workers[t]; Inv(s.Put(t, WithCid(w, w.pc.owned[0], next)))
  {
    var w := s.workers[t];
    FoundWorker(s.job, s.g, t, w, next);
    if Held(s.g, t) {
      FoundHolder(s.job, s.g, t, w, next);
    }
    LocalStep(s, t, WithCid(w, w.pc.owned[0], next));
  }

  lemma FoundWorker(job: Job, g: Shared, t: Token, w: Worker, next: Pc)
    requires WorkerInv(job, g, t, w) && w.pc.Identify? && |w.pc.owned| == 1
    requires FoundNext(w, w.pc.owned[0], next)
    ensures WorkerInv(job, g, t, WithCid(w, w.pc.owned[0], next))
  {
    var row := w.rows[w.idx].(cid := Some(w.pc.owned[0]));
    assert w.pc.owned[0] in w.pc.owned;
    RowData(job, g, t, w, WithCid(w, w.pc.owned[0], next), row);
    FoundShape(job, g, t, w, next);
  }

  lemma FoundShape(job: Job, g: Shared, t: Token, w: Worker, next: Pc)
    requires ShapeInv(job, w) && PcInv(job, g, t, w) && w.pc.Identify? && |w.pc.owned| == 1
    requires FoundNext(w, w.pc.owned[0], next)
    ensures ShapeInv(job, WithCid(w, w.pc.owned[0], next))
    ensures PcInv(job, g, t, WithCid(w, w.pc.owned[0], next))
  {
  }

  lemma FoundHolder(job: Job, g: Shared, t: Token, w: Worker, next: Pc)
    requires ShapeInv(job, w) && HolderInv(job, g, w) && w.pc.Identify? && |w.pc.owned| == 1
    requires FoundNext(w, w.pc.owned[0], next)
    ensures HolderInv(job, g, WithCid(w, w.pc.owned[0], next))
  {
    var w' := WithCid(w, w.pc.owned[0], next);
    forall q ensures SameAhead(g, w', q) {
      assert SameAhead(g, w, q);
    }
    forall q ensures Finished(g, w', q) {
      assert Finished(g, w, q);
    }
    assert SameAhead(g, w, w.idx);
  }
}
