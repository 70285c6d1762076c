/** A creation that was announced and cannot be found keeps an undisturbed resume from completing
    and an undisturbed undo from ending as undone. */
module RunLost {
  import opened Wrappers
  import opened TreeBuilders
  import opened RunMachine
  import opened RunInvariant
  import opened RunCommands
  import opened RunReachable
  import opened RunCalm
  import opened RunClaims

  /** Nobody can tell what became of row `p`'s creation: it was announced, no id is recorded, and
      no channel with the row's provisional banner is there. */
  predicate Lost(g: Shared, p: nat)
    requires p < |g.rows|
  {
    Open(g.rows[p]) && !(p in g.born && g.born[p].cid in g.server && g.server[g.born[p].cid].look.banner == RowUrl(p))
  }

  /** The worker's listing does not show it either. */
  predicate Unseen(g: Shared, w: Worker, p: nat) {
    p in g.born && g.born[p].cid in w.snap ==> w.snap[g.born[p].cid].banner != RowUrl(p)
  }

  /** At the lost row the worker finds nothing and gives up. */
  predicate GivingUp(w: Worker)
    requires 0 <= w.idx < |w.rows|
  {
    match w.pc
    case Identify(todo, owned) => owned == [] && todo <= Candidates(w)
    case BodyDone(ok) => !ok
    case _ => w.pc.Load? || w.pc.ListChannels? || w.pc.RowStart? || w.pc.WriteParent? || w.pc.RowCatch?
  }

  /** Row `p` stays lost: a resume does not get past it, an undo passes it over. */
  predicate Blocked(g: Shared, w: Worker, p: nat) {
    && p < |g.rows| == |w.rows| && Lost(g, p)
    && (w.kind == Resume ==> w.idx <= p) && !w.stopped
    && (!w.pc.Load? ==> Open(w.rows[p]))
    && (OnListing(w.pc) ==> Unseen(g, w, p))
    && (w.idx == p ==> GivingUp(w))
  }

  predicate BlockedIn(s: State, t: Token, p: nat) {
    t < |s.workers| && Blocked(s.g, s.workers[t], p)
  }

  // ------------------------------------------------------------ at another row

  /** The worker is at another row, a resume at an earlier one. */
  predicate Apart(w: Worker, p: nat) {
    w.idx != p && (w.kind == Resume ==> w.idx < p)
  }

  /** Work on another row. */
  predicate OnOtherRow(s: State, t: Token, p: nat, s': State) {
    && t < |s.workers| == |s'.workers| && p < |s.g.rows| == |s'.g.rows| && p < |s.workers[t].rows| == |s'.workers[t].rows|
    && s'.g.server == s.g.server && s'.g.born == s.g.born && s'.g.rows[p] == s.g.rows[p]
    && var w, w' := s.workers[t], s'.workers[t];
      && w'.kind == w.kind && w'.rows[p] == w.rows[p] && w'.stopped == w.stopped
      && (forall d :: d in w'.snap ==> (d in w.snap && w'.snap[d] == w.snap[d]) || w'.snap[d].banner != RowUrl(p))
      && (OnListing(w'.pc) ==> OnListing(w.pc)) && !w'.pc.Load?
      && (w'.idx == w.idx || (w'.pc == RowStart && (w.kind == Resume ==> w'.idx == w.idx + 1)))
  }

  lemma OtherBlocked(s: State, t: Token, p: nat, s': State)
    requires BlockedIn(s, t, p) && Apart(s.workers[t], p) && !s.workers[t].pc.Load? && OnOtherRow(s, t, p, s')
    ensures BlockedIn(s', t, p)
  {
  }

  lemma OtherActs(s: State, t: Token, p: nat, pick: Cid) returns (s': State)
    requires t < |s.workers| && ShapeInv(s.job, s.workers[t]) && |s.g.rows| == |s.job.depths|
    requires BlockedIn(s, t, p) && Apart(s.workers[t], p) && RowPc(s.workers[t].pc)
    ensures s' == ActOnRow(s, t, pick) && OnOtherRow(s, t, p, s')
  {
    var w := s.workers[t];
    if LeasePc(w.pc) {
      s' := AssertLease(s, t, w.Go(LeaseNext(w.pc)));
    } else if w.pc.Identify? {
      s' := IdentifyStep(s, t, pick);
      OtherIdentify(s, t, p, pick);
    } else if w.pc.SendCreate? || w.pc.AwaitCreate? || w.pc.SendEdit? || w.pc.AwaitEdit? {
      s' := ActOnRow(s, t, pick);
      OtherCommand(s, t, p, pick);
    } else if UndoPc(w.pc) {
      s' := OtherUndo(s, t, p, pick);
    } else {
      s' := OtherWrite(s, t, p, pick);
    }
  }

  lemma OtherIdentify(s: State, t: Token, p: nat, pick: Cid)
    requires t < |s.workers| && ShapeInv(s.job, s.workers[t])
    requires BlockedIn(s, t, p) && Apart(s.workers[t], p) && s.workers[t].pc.Identify?
    ensures OnOtherRow(s, t, p, IdentifyStep(s, t, pick))
  {
    var w := s.workers[t];
    if w.pc.todo == {} {
      OtherDecide(s.job, w, w.pc.owned, p);
      assert IdentifyStep(s, t, pick).workers[t] == Decide(s.job, w, w.pc.owned);
    }
  }

  lemma OtherDecide(job: Job, w: Worker, owned: seq<Cid>, p: nat)
    requires 0 <= w.idx < |w.rows| && p < |w.rows| && w.idx != p && w.idx < |job.names|
    ensures var w' := Decide(job, w, owned);
      && |w'.rows| == |w.rows| && w'.rows[p] == w.rows[p]
      && w' == w.(pc := w'.pc, rows := w'.rows) && !w'.pc.Load?
  {
    if |owned| == 1 {
      var found := w.Local(w.rows[w.idx].(cid := Some(owned[0])));
      var w' := Decide(job, w, owned);
      assert |found.rows| == |w.rows| && found.rows[p] == w.rows[p];
      assert w' == found.Go(w'.pc);
    }
  }

  lemma OtherCommand(s: State, t: Token, p: nat, pick: Cid)
    requires t < |s.workers| && ShapeInv(s.job, s.workers[t]) && |s.g.rows| == |s.job.depths|
    requires BlockedIn(s, t, p) && Apart(s.workers[t], p)
    requires var pc := s.workers[t].pc; pc.SendCreate? || pc.AwaitCreate? || pc.SendEdit? || pc.AwaitEdit?
    ensures OnOtherRow(s, t, p, ActOnRow(s, t, pick))
  {
  }

  lemma OtherUndo(s: State, t: Token, p: nat, pick: Cid) returns (s': State)
    requires t < |s.workers| && ShapeInv(s.job, s.workers[t]) && |s.g.rows| == |s.job.depths|
    requires BlockedIn(s, t, p) && Apart(s.workers[t], p)
    requires UndoPc(s.workers[t].pc) && !LeasePc(s.workers[t].pc)
    ensures s' == ActOnRow(s, t, pick) && OnOtherRow(s, t, p, s')
  {
    var w := s.workers[t];
    if w.pc.WriteIntent? {
      s' := WriteIntentStep(s, t);
      OtherIntent(s, t, p);
    } else if w.pc.MarkDeleted? {
      s' := MarkDeletedStep(s, t);
      OtherMark(s, t, p);
    } else if w.pc.SendDelete? {
      s' := SendStep(s, t, DeleteCmd(w.idx, w.rows[w.idx].cid.value), AwaitDelete);
    } else {
      s' := AwaitDeleteStep(s, t);
    }
  }

  lemma OtherIntent(s: State, t: Token, p: nat)
    requires t < |s.workers| && ShapeInv(s.job, s.workers[t]) && |s.g.rows| == |s.job.depths|
    requires BlockedIn(s, t, p) && Apart(s.workers[t], p) && s.workers[t].pc.WriteIntent?
    ensures OnOtherRow(s, t, p, WriteIntentStep(s, t))
  {
  }

  lemma OtherMark(s: State, t: Token, p: nat)
    requires t < |s.workers| && ShapeInv(s.job, s.workers[t]) && |s.g.rows| == |s.job.depths|
    requires BlockedIn(s, t, p) && Apart(s.workers[t], p) && s.workers[t].pc.MarkDeleted?
    ensures OnOtherRow(s, t, p, MarkDeletedStep(s, t))
  {
  }

  lemma OtherWrite(s: State, t: Token, p: nat, pick: Cid) returns (s': State)
    requires t < |s.workers| && ShapeInv(s.job, s.workers[t]) && |s.g.rows| == |s.job.depths|
    requires BlockedIn(s, t, p) && Apart(s.workers[t], p)
    requires var pc := s.workers[t].pc;
      pc.WriteParent? || pc.Latch? || pc.WriteCid? || pc.SaveImage? || pc.WriteSaved? || pc.RowCatch?
    ensures s' == ActOnRow(s, t, pick) && OnOtherRow(s, t, p, s')
  {
    var w := s.workers[t];
    if w.pc.WriteSaved? {
      s' := WriteSavedStep(s, t);
      OtherSaved(s, t, p);
    } else if w.pc.SaveImage? {
      s' := SaveImageStep(s, t);
      OtherImage(s, t, p);
    } else if w.pc.RowCatch? {
      s' := RowCatchStep(s, t);
      OtherCatch(s, t, p);
    } else {
      s' := OtherFenced(s, t, p, pick);
    }
  }

  lemma OtherFenced(s: State, t: Token, p: nat, pick: Cid) returns (s': State)
    requires t < |s.workers| && ShapeInv(s.job, s.workers[t]) && |s.g.rows| == |s.job.depths|
    requires BlockedIn(s, t, p) && Apart(s.workers[t], p)
    requires var pc := s.workers[t].pc; pc.WriteParent? || pc.Latch? || pc.WriteCid?
    ensures s' == ActOnRow(s, t, pick) && OnOtherRow(s, t, p, s')
  {
    var w := s.workers[t];
    if w.pc.WriteParent? {
      s' := WriteParentStep(s, t);
      OtherParent(s, t, p);
    } else if w.pc.Latch? {
      s' := LatchStep(s, t);
      OtherLatch(s, t, p);
    } else {
      s' := WriteCidStep(s, t);
    }
  }

  lemma OtherParent(s: State, t: Token, p: nat)
    requires t < |s.workers| && ShapeInv(s.job, s.workers[t]) && |s.g.rows| == |s.job.depths|
    requires BlockedIn(s, t, p) && Apart(s.workers[t], p) && s.workers[t].pc.WriteParent?
    ensures OnOtherRow(s, t, p, WriteParentStep(s, t))
  {
  }

  lemma OtherLatch(s: State, t: Token, p: nat)
    requires t < |s.workers| && ShapeInv(s.job, s.workers[t]) && |s.g.rows| == |s.job.depths|
    requires BlockedIn(s, t, p) && Apart(s.workers[t], p) && s.workers[t].pc.Latch?
    ensures OnOtherRow(s, t, p, LatchStep(s, t))
  {
  }

  lemma OtherSaved(s: State, t: Token, p: nat)
    requires t < |s.workers| && ShapeInv(s.job, s.workers[t]) && |s.g.rows| == |s.job.depths|
    requires BlockedIn(s, t, p) && Apart(s.workers[t], p) && s.workers[t].pc.WriteSaved?
    ensures OnOtherRow(s, t, p, WriteSavedStep(s, t))
  {
  }

  lemma OtherImage(s: State, t: Token, p: nat)
    requires t < |s.workers| && ShapeInv(s.job, s.workers[t]) && |s.g.rows| == |s.job.depths|
    requires BlockedIn(s, t, p) && Apart(s.workers[t], p) && s.workers[t].pc.SaveImage?
    ensures OnOtherRow(s, t, p, SaveImageStep(s, t))
  {
  }

  lemma OtherCatch(s: State, t: Token, p: nat)
    requires t < |s.workers| && ShapeInv(s.job, s.workers[t]) && |s.g.rows| == |s.job.depths|
    requires BlockedIn(s, t, p) && Apart(s.workers[t], p) && s.workers[t].pc.RowCatch?
    ensures OnOtherRow(s, t, p, RowCatchStep(s, t))
  {
  }

  // ------------------------------------------------------------ at the lost row

  lemma AtLostRow(s: State, t: Token, p: nat, pick: Cid) returns (s': State)
    requires t < |s.workers| && ShapeInv(s.job, s.workers[t]) && |s.g.rows| == |s.job.depths|
    requires forall c :: ChannelInv(s.g, c)
    requires BlockedIn(s, t, p) && s.workers[t].idx == p && RowPc(s.workers[t].pc)
    ensures s' == ActOnRow(s, t, pick) && BlockedIn(s', t, p)
  {
    var w := s.workers[t];
    if w.pc.Identify? {
      s' := IdentifyStep(s, t, pick);
      LostIdentify(s, t, p, pick);
    } else if w.pc.WriteParent? {
      s' := WriteParentStep(s, t);
      LostParent(s, t, p);
    } else {
      s' := RowCatchStep(s, t);
      LostCatch(s, t, p);
    }
  }

  lemma LostIdentify(s: State, t: Token, p: nat, pick: Cid)
    requires t < |s.workers| && ShapeInv(s.job, s.workers[t]) && forall c :: ChannelInv(s.g, c)
    requires BlockedIn(s, t, p) && s.workers[t].idx == p && s.workers[t].pc.Identify?
    ensures BlockedIn(IdentifyStep(s, t, pick), t, p)
  {
    var w := s.workers[t];
    if w.pc.todo != {} && pick in w.pc.todo && pick in s.g.server {
      assert ChannelInv(s.g, pick);
    }
  }

  lemma LostParent(s: State, t: Token, p: nat)
    requires t < |s.workers| && ShapeInv(s.job, s.workers[t]) && |s.g.rows| == |s.job.depths|
    requires BlockedIn(s, t, p) && s.workers[t].idx == p && s.workers[t].pc.WriteParent?
    ensures BlockedIn(WriteParentStep(s, t), t, p)
  {
  }

  lemma LostCatch(s: State, t: Token, p: nat)
    requires t < |s.workers| && ShapeInv(s.job, s.workers[t]) && |s.g.rows| == |s.job.depths|
    requires BlockedIn(s, t, p) && s.workers[t].idx == p && s.workers[t].pc.RowCatch?
    ensures BlockedIn(RowCatchStep(s, t), t, p)
  {
    var w, s' := s.workers[t], RowCatchStep(s, t);
    assert s'.workers[t] == w.(failed := true, pc := BodyDone(false))
        || (w.kind == Undo && s'.workers[t] == w.(failed := true, idx := p - 1, pc := RowStart));
    assert s'.g == s.g.(rows := s'.g.rows) && |s'.g.rows| == |s.g.rows| && Open(s'.g.rows[p]);
  }

  // ------------------------------------------------------------ all of it

  lemma BlockedActs(s: State, t: Token, p: nat, pick: Cid) returns (s': State)
    requires Inv(s) && BlockedIn(s, t, p)
    ensures s' == Act(s, t, pick) && BlockedIn(s', t, p)
  {
    var w := s.workers[t];
    assert WorkerInv(s.job, s.g, t, w);
    if !RowPc(w.pc) {
      s' := BlockedLoop(s, t, p, pick);
    } else if w.idx != p {
      s' := OtherActs(s, t, p, pick);
      OtherBlocked(s, t, p, s');
    } else {
      s' := AtLostRow(s, t, p, pick);
    }
  }

  lemma BlockedLoop(s: State, t: Token, p: nat, pick: Cid) returns (s': State)
    requires t < |s.workers| && ShapeInv(s.job, s.workers[t]) && |s.g.rows| == |s.job.depths|
    requires BlockedIn(s, t, p) && !RowPc(s.workers[t].pc)
    ensures s' == Act(s, t, pick) && BlockedIn(s', t, p)
  {
    var w := s.workers[t];
    if w.pc.Load? {
      s' := LoadStep(s, t);
    } else if w.pc.ListChannels? {
      s' := ListStep(s, t);
    } else if w.pc.RowStart? {
      if w.kind == Resume {
        s' := ResumeRow(s, t);
        BlockedResume(s, t, p);
      } else {
        s' := UndoRow(s, t);
        BlockedUndo(s, t, p);
      }
    } else {
      s' := s;
    }
  }

  lemma BlockedResume(s: State, t: Token, p: nat)
    requires t < |s.workers| && ShapeInv(s.job, s.workers[t]) && |s.g.rows| == |s.job.depths|
    requires BlockedIn(s, t, p) && s.workers[t].pc.RowStart? && s.workers[t].kind == Resume
    ensures BlockedIn(ResumeRow(s, t), t, p)
  {
  }

  lemma BlockedUndo(s: State, t: Token, p: nat)
    requires t < |s.workers| && ShapeInv(s.job, s.workers[t]) && |s.g.rows| == |s.job.depths|
    requires BlockedIn(s, t, p) && s.workers[t].pc.RowStart? && s.workers[t].kind == Undo
    ensures BlockedIn(UndoRow(s, t), t, p)
  {
  }

  lemma BlockedDelivers(s: State, t: Token, p: nat, c: Cid)
    requires Inv(s) && BlockedIn(s, t, p)
    ensures BlockedIn(Deliver(s, t, c), t, p)
  {
    var w := s.workers[t];
    assert WorkerInv(s.job, s.g, t, w) && FlightInv(s.job, s.g, t, w) && BornInv(s.job, s.g, p);
    if w.flight.Sent? && (w.flight.cmd.EditCmd? || w.flight.cmd.DeleteCmd?) {
      assert w.flight.cmd.row in BornCids(s.g.born) && (p in s.g.born ==> p in BornCids(s.g.born));
    }
  }

  lemma BlockedFinishes(s: State, t: Token, p: nat)
    requires BlockedIn(s, t, p)
    ensures BlockedIn(Finish(s, t), t, p)
  {
    OnlyOuter(s, t);
    OnlyRunRow(s, t);
    BlockedSame(s.g, Finish(s, t).g, s.workers[t], OuterNext(s.workers[t]), p);
  }

  lemma BlockedSame(g: Shared, g': Shared, w: Worker, outer: Outer, p: nat)
    requires Blocked(g, w, p) && g' == g.(run := g'.run)
    ensures Blocked(g', w.(outer := outer), p)
  {
  }

  lemma BlockedNext(s: State, t: Token, p: nat, e: Event) returns (s': State)
    requires Inv(s) && BlockedIn(s, t, p) && Calm(e, t)
    ensures s' == Next(s, e) && BlockedIn(s', t, p)
  {
    if e.Acts? {
      NextActs(s, t, e.pick);
      s' := BlockedActs(s, t, p, e.pick);
    } else if e.Delivers? {
      NextDelivers(s, t, e.cid);
      s' := Deliver(s, t, e.cid);
      BlockedDelivers(s, t, p, e.cid);
    } else if e.Finishes? {
      NextFinishes(s, t);
      s' := Finish(s, t);
      BlockedFinishes(s, t, p);
    } else {
      s' := WaitsNext(s, t, e);
    }
  }

  lemma {:induction false} BlockedRun(s: State, kind: Kind, events: seq<Event>, p: nat)
    requires Inv(s) && Started(s, Claim(s, kind)) && p < |s.g.rows| && Lost(s.g, p) && AllCalm(events, |s.workers|)
    ensures BlockedIn(Run(Claim(s, kind), events), |s.workers|, p)
  {
    if events != [] {
      BlockedRun(s, kind, events[..|events| - 1], p);
      ClaimInv(s, kind);
      RunInv(Claim(s, kind), events[..|events| - 1]);
      var s' := BlockedNext(Run(Claim(s, kind), events[..|events| - 1]), |s.workers|, p, events[|events| - 1]);
    }
  }

  /** No undisturbed resume completes a run that lost a creation, and no undisturbed undo ends it
      as undone, whatever state it is in. */
  lemma LostNeverEnds(s: State, kind: Kind, events: seq<Event>, p: nat)
    requires Inv(s) && Started(s, Claim(s, kind)) && p < |s.g.rows| && Lost(s.g, p) && AllCalm(events, |s.workers|)
    ensures var g' := Run(Claim(s, kind), events).g;
      g'.run.status != Completed && g'.run.status != Undone && p < |g'.rows| && Lost(g', p)
  {
    BlockedRun(s, kind, events, p);
    ClaimInv(s, kind);
    RunInv(Claim(s, kind), events);
    var s' := Run(Claim(s, kind), events);
    assert RowInv(s'.job, s'.g, p);
  }
}
