/** The invariant holds in every reachable state, for every order of steps. */
module RunReachable {
  import opened Wrappers
  import opened TreeBuilders
  import opened RunMachine
  import opened RunInvariant
  import opened RunFrames
  import opened RunSteps
  import opened RunIdentify
  import opened RunCommands
  import opened RunFinishing
  import opened RunServer

  lemma ActOnRowInv(s: State, t: Token, pick: Cid) returns (s': State)
    requires Inv(s) && t < |s.workers| && RowPc(s.workers[t].pc)
    requires AtRow(s.job, s.workers[t]) && |s.g.rows| == |s.job.depths|
    ensures s' == ActOnRow(s, t, pick) && Inv(s')
  {
    var w := s.workers[t];
    if LeasePc(w.pc) {
      LeaseGo(s, t);
      s' := AssertLease(s, t, w.Go(LeaseNext(w.pc)));
    } else if w.pc.Identify? {
      IdentifyInv(s, t, pick);
      s' := IdentifyStep(s, t, pick);
    } else if UndoPc(w.pc) || w.pc.RowCatch? {
      s' := ActUndoing(s, t, pick);
    } else {
      s' := ActResuming(s, t, pick);
    }
  }

  lemma ActUndoing(s: State, t: Token, pick: Cid) returns (s': State)
    requires Inv(s) && t < |s.workers| && AtRow(s.job, s.workers[t]) && |s.g.rows| == |s.job.depths|
    requires var pc := s.workers[t].pc; (UndoPc(pc) && !LeasePc(pc)) || pc.RowCatch?
    ensures s' == ActOnRow(s, t, pick) && Inv(s')
  {
    var w := s.workers[t];
    if w.pc.WriteIntent? {
      WriteIntentInv(s, t);
      s' := WriteIntentStep(s, t);
    } else if w.pc.SendDelete? {
      SendDeleteInv(s, t);
      s' := SendStep(s, t, DeleteCmd(w.idx, w.rows[w.idx].cid.value), AwaitDelete);
    } else if w.pc.AwaitDelete? {
      AwaitDeleteInv(s, t);
      s' := AwaitDeleteStep(s, t);
    } else if w.pc.MarkDeleted? {
      s' := MarkDeletedInv(s, t);
    } else {
      RowCatchInv(s, t);
      s' := RowCatchStep(s, t);
    }
  }

  lemma ActResuming(s: State, t: Token, pick: Cid) returns (s': State)
    requires Inv(s) && t < |s.workers| && AtRow(s.job, s.workers[t]) && |s.g.rows| == |s.job.depths|
    requires var pc := s.workers[t].pc; ResumePc(pc) && !LeasePc(pc)
    ensures s' == ActOnRow(s, t, pick) && Inv(s')
  {
    var w := s.workers[t];
    if w.pc.WriteParent? {
      WriteParentInv(s, t);
      s' := WriteParentStep(s, t);
    } else if w.pc.Latch? {
      LatchInv(s, t);
      s' := LatchStep(s, t);
    } else if w.pc.SendCreate? {
      SendCreateInv(s, t);
      s' := SendStep(s, t, CreateFor(w), AwaitCreate);
    } else if w.pc.AwaitCreate? {
      AwaitCreateInv(s, t);
      s' := AwaitCreateStep(s, t);
    } else if w.pc.WriteCid? {
      WriteCidInv(s, t);
      s' := WriteCidStep(s, t);
    } else {
      s' := ActStoring(s, t, pick);
    }
  }

  lemma ActStoring(s: State, t: Token, pick: Cid) returns (s': State)
    requires Inv(s) && t < |s.workers| && AtRow(s.job, s.workers[t]) && |s.g.rows| == |s.job.depths|
    requires var pc := s.workers[t].pc; pc.SaveImage? || pc.SendEdit? || pc.AwaitEdit? || pc.WriteSaved?
    ensures s' == ActOnRow(s, t, pick) && Inv(s')
  {
    var w := s.workers[t];
    if w.pc.SaveImage? {
      SaveImageInv(s, t);
      s' := SaveImageStep(s, t);
    } else if w.pc.SendEdit? {
      SendEditInv(s, t);
      s' := SendStep(s, t, EditCmd(w.idx, w.rows[w.idx].cid.value), AwaitEdit);
    } else if w.pc.AwaitEdit? {
      AwaitEditInv(s, t);
      s' := AwaitEditStep(s, t);
    } else {
      WriteSavedInv(s, t);
      s' := WriteSavedStep(s, t);
    }
  }

  lemma ActInv(s: State, t: Token, pick: Cid)
    requires Inv(s) && t < |s.workers|
    ensures Inv(Act(s, t, pick))
  {
    var w := s.workers[t];
    if w.pc.Load? {
      LoadInv(s, t);
    } else if w.pc.ListChannels? {
      ListInv(s, t);
    } else if w.pc.RowStart? && w.kind == Resume {
      ResumeRowInv(s, t);
    } else if w.pc.RowStart? {
      UndoRowInv(s, t);
    } else if !w.pc.BodyDone? {
      var s' := ActOnRowInv(s, t, pick);
    }
  }

  lemma FailInv(s: State, t: Token)
    requires Inv(s) && t < |s.workers|
    ensures Inv(Fail(s, t))
  {
    var w := s.workers[t];
    if w.pc.Load? {
      OuterStep(s, t, w.(outer := Releasing, pc := BodyDone(false)));
    } else if RowPc(w.pc) && !w.pc.RowCatch? {
      FailRow(s, t);
    } else if w.pc.RowStart? && w.kind == Undo && 0 <= w.idx < |w.rows| {
      CatchStep(s, t, w.Catch());
    } else if !w.pc.BodyDone? {
      LeaveLoop(s, t, w.(failed := true, pc := BodyDone(false)));
    }
  }

  lemma FailRow(s: State, t: Token)
    requires Inv(s) && t < |s.workers| && RowPc(s.workers[t].pc)
    ensures var w := s.workers[t]; Inv(s.Put(t, w.(stopped := w.stopped || Awaiting(w.pc)).Catch()))
  {
    var w := s.workers[t];
    CatchStep(s, t, w.(stopped := w.stopped || Awaiting(w.pc)).Catch());
  }

  /** The code around the loop moves on; the loaded data stay. */
  lemma OuterStep(s: State, t: Token, w': Worker)
    requires Inv(s) && t < |s.workers| && SameData(s.workers[t], w')
    requires w'.flight == s.workers[t].flight && ShapeInv(s.job, w')
    requires w'.pc == s.workers[t].pc || w'.pc.BodyDone?
    requires w'.failed == s.workers[t].failed
    requires Held(s.g, t) ==> PhaseOk(s.g.run.status, w')
    ensures Inv(s.Put(t, w'))
  {
    var w := s.workers[t];
    WorkerTo(s.job, s.g, t, w, w');
    if Held(s.g, t) {
      OuterHolder(s.job, s.g, w, w');
    }
    LocalStep(s, t, w');
  }

  lemma OuterHolder(job: Job, g: Shared, w: Worker, w': Worker)
    requires HolderInv(job, g, w) && SameData(w, w') && w'.failed == w.failed
    requires w'.pc == w.pc || w'.pc.BodyDone?
    requires PhaseOk(g.run.status, w')
    ensures HolderInv(job, g, w')
  {
    forall q ensures Finished(g, w', q) {
      assert Finished(g, w, q);
    }
    forall q ensures SameAhead(g, w', q) {
      assert SameAhead(g, w, q);
    }
  }

  lemma DeadlineInv(s: State, t: Token)
    requires Inv(s) && t < |s.workers|
    ensures Inv(Deadline(s, t))
  {
    var w := s.workers[t];
    if w.outer == Inside && w.pc != Load {
      OuterStep(s, t, w.(outer := Closing(false), stopped := true));
    }
  }

  lemma FinishInv(s: State, t: Token)
    requires Inv(s) && t < |s.workers|
    ensures Inv(Finish(s, t))
  {
    var w := s.workers[t];
    match w.outer {
      case Inside =>
        if w.pc.BodyDone? {
          OuterStep(s, t, w.(outer := Closing(w.pc.ok && !w.failed && !w.stopped)));
        }
      case Closing(ok) =>
        if Held(s.g, t) {
          FinalWrite(s, t);
        } else {
          OuterStep(s, t, w.(outer := Releasing));
        }
      case Releasing =>
        if Held(s.g, t) {
          Release(s, t);
        } else {
          OuterStep(s, t, w.(outer := Gone));
        }
      case Gone =>
    }
  }

  /** The final status tells the truth about the rows. */
  lemma FinalTruth(s: State, t: Token)
    requires Inv(s) && t < |s.workers| && Held(s.g, t) && s.workers[t].outer == Closing(true)
    ensures forall p :: 0 <= p < |s.g.rows| ==>
              s.g.rows[p].status == if s.workers[t].kind == Resume then Saved else Deleted
  {
    var w := s.workers[t];
    forall p | 0 <= p < |s.g.rows| ensures s.g.rows[p].status == if w.kind == Resume then Saved else Deleted {
      assert Finished(s.g, w, p);
    }
  }

  lemma FinalWrite(s: State, t: Token)
    requires Inv(s) && t < |s.workers| && Held(s.g, t) && s.workers[t].outer.Closing?
    ensures Inv(Finish(s, t))
  {
    var w := s.workers[t];
    HolderOf(s, t);
    var run := s.g.run.(status := FinalStatus(w.kind, w.outer.ok));
    var g' := s.g.(run := run);
    var w' := w.(outer := Releasing);
    if w.outer.ok {
      FinalTruth(s, t);
    }
    RunWrite(s.job, s.g, run);
    FinalWorker(s.job, s.g, g', t, w);
    FinalHolder(s.job, s.g, w, run);
    Compose(s, t, g', w');
  }

  lemma FinalWorker(job: Job, g: Shared, g': Shared, t: Token, w: Worker)
    requires SharedInv(job, g) && WorkerInv(job, g, t, w) && Grows(g, g') && Unspent(g, g', t)
    requires w.outer.Closing?
    ensures WorkerInv(job, g', t, w.(outer := Releasing))
  {
    WorkerStable(job, g, g', t, w);
    WorkerTo(job, g', t, w, w.(outer := Releasing));
  }

  lemma FinalHolder(job: Job, g: Shared, w: Worker, run: RunRow)
    requires HolderInv(job, g, w) && ShapeInv(job, w) && w.outer.Closing?
    requires run == g.run.(status := FinalStatus(w.kind, w.outer.ok))
    ensures HolderInv(job, g.(run := run), w.(outer := Releasing))
  {
    var g', w' := g.(run := run), w.(outer := Releasing);
    forall q ensures SameAhead(g', w', q) {
      assert SameAhead(g, w, q);
    }
    forall q ensures Finished(g', w', q) {
      assert Finished(g, w, q);
    }
  }

  lemma Release(s: State, t: Token)
    requires Inv(s) && t < |s.workers| && Held(s.g, t) && s.workers[t].outer.Releasing?
    ensures Inv(Finish(s, t))
  {
    var w := s.workers[t];
    var run := RunRow(s.g.run.status, None, None);
    var g' := s.g.(run := run);
    RunWrite(s.job, s.g, run);
    WorkerStable(s.job, s.g, g', t, w);
    WorkerTo(s.job, g', t, w, w.(outer := Gone));
    Compose(s, t, g', w.(outer := Gone));
  }

  lemma FinishFailInv(s: State, t: Token)
    requires Inv(s) && t < |s.workers|
    ensures Inv(FinishFail(s, t))
  {
    var w := s.workers[t];
    match w.outer {
      case Closing(ok) =>
        if ok && w.kind == Resume {
          OuterStep(s, t, w.(outer := Closing(false)));
        } else {
          OuterStep(s, t, w.(outer := Releasing));
        }
      case Releasing => OuterStep(s, t, w.(outer := Gone));
      case _ =>
    }
  }

  lemma HeartbeatInv(s: State, t: Token)
    requires Inv(s) && t < |s.workers|
    ensures Inv(Heartbeat(s, t))
  {
    if Held(s.g, t) {
      RenewStep(s, t, s.workers[t]);
      assert s.workers[t := s.workers[t]] == s.workers;
    }
  }

  // ------------------------------------------------------------ the claim

  lemma NewWorkerInv(job: Job, g: Shared, t: Token, kind: Kind)
    requires job.Valid()
    ensures WorkerInv(job, g, t, NewWorker(job, kind))
  {
    var w := NewWorker(job, kind);
    assert LocalCids(w) == map[];
    if kind == Resume {
      forall d: nat {:trigger ParentSlot(job.depths, map[], job.root, 0, w.parents, d)}
        ensures ParentSlot(job.depths, map[], job.root, 0, w.parents, d)
      {
      }
      forall parent {:trigger SiblingSlot(job.depths, map[], job.root, 0, w.siblings, parent)}
        ensures SiblingSlot(job.depths, map[], job.root, 0, w.siblings, parent)
      {
      }
    }
  }

  lemma ClaimInv(s: State, kind: Kind)
    requires Inv(s)
    ensures Inv(Claim(s, kind))
  {
    if Claimable(s.g, kind) {
      var s' := Claim(s, kind);
      RunWrite(s.job, s.g, s'.g.run);
      forall u | 0 <= u < |s'.workers| ensures WorkerInv(s.job, s'.g, u, s'.workers[u]) {
        if u < |s.workers| {
          WorkerStable(s.job, s.g, s'.g, u, s.workers[u]);
        } else {
          NewWorkerInv(s.job, s'.g, u, kind);
        }
      }
      assert HolderInv(s.job, s'.g, NewWorker(s.job, kind));
    }
  }

  // ------------------------------------------------------------ runs

  lemma TurnInv(s: State, t: Token, e: Event)
    requires Inv(s) && t < |s.workers|
    ensures Inv(Turn(s, t, e))
  {
    match e {
      case Acts(_, pick) => ActInv(s, t, pick);
      case Fails(_) => FailInv(s, t);
      case HitsDeadline(_) => DeadlineInv(s, t);
      case Finishes(_) => FinishInv(s, t);
      case FinishFails(_) => FinishFailInv(s, t);
      case Beats(_) => HeartbeatInv(s, t);
      case Delivers(_, c) => DeliverInv(s, t, c);
      case Refuses(_) => RefuseInv(s, t);
      case _ =>
    }
  }

  lemma NextState(s: State, e: Event) returns (s': State)
    requires Inv(s)
    ensures s' == Next(s, e) && Inv(s')
  {
    if e.ClaimBy? {
      ClaimInv(s, e.kind);
      s' := Claim(s, e.kind);
    } else if e.Outsiders? {
      OutsiderInv(s, e.o);
      s' := s.(g := Outsider(s.g, e.o));
    } else if e.Ticks? {
      TickInv(s, e.ms);
      s' := s.(g := s.g.(now := s.g.now + e.ms));
    } else if e.t < |s.workers| {
      TurnInv(s, e.t, e);
      s' := Turn(s, e.t, e);
    } else {
      s' := s;
    }
  }

  /** Every step of anybody keeps the invariant. */
  lemma NextInv(s: State, e: Event)
    requires Inv(s)
    ensures Inv(Next(s, e))
  {
    var s' := NextState(s, e);
  }

  lemma InitInv(s: State)
    requires Init(s)
    ensures Inv(s)
  {
    forall p ensures RowInv(s.job, s.g, p) {
    }
    forall p ensures BornInv(s.job, s.g, p) {
    }
    forall c ensures ChannelInv(s.g, c) {
    }
    assert BornCids(s.g.born) == map[];
  }

  /** Every reachable state: any workers, any order, any failures. */
  lemma {:induction false} RunInv(s: State, events: seq<Event>)
    requires Inv(s)
    ensures Inv(Run(s, events))
  {
    if events != [] {
      RunInv(s, events[..|events| - 1]);
      NextInv(Run(s, events[..|events| - 1]), events[|events| - 1]);
    }
  }
}
