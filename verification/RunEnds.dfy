/** Undisturbed work always gets to its end, from every state a run can be in: the channel a command
    names is there as long as nobody else does anything. */
module RunEnds {
  import opened Wrappers
  import opened TreeBuilders
  import opened RunMachine
  import opened RunInvariant
  import opened RunCommands
  import opened RunReachable
  import opened RunCalm
  import opened RunClaims

  /** The worker is at a channel it has not asked to delete yet. */
  predicate AtChannel(pc: Pc) {
    CidPc(pc) && !pc.AwaitDelete?
  }

  /** The channels the worker is concerned with are there. */
  predicate ChannelsThere(g: Shared, w: Worker) {
    && !w.stopped && TargetThere(g, w)
    && (w.pc.Identify? ==> forall o :: o in w.pc.owned ==> o in g.server)
    && (AtChannel(w.pc) && 0 <= w.idx < |w.rows| && w.rows[w.idx].cid.Some? ==> w.rows[w.idx].cid.value in g.server)
    && (w.pc.AwaitCreate? && w.flight.Applied? ==> w.flight.cid in g.server)
  }

  predicate ThereIn(s: State, t: Token) {
    t < |s.workers| && ChannelsThere(s.g, s.workers[t])
  }

  lemma ThereActs(s: State, t: Token, pick: Cid) returns (s': State)
    requires t < |s.workers| && ShapeInv(s.job, s.workers[t]) && PcInv(s.job, s.g, t, s.workers[t])
    requires |s.g.rows| == |s.job.depths| && ThereIn(s, t)
    ensures s' == Act(s, t, pick) && ThereIn(s', t)
  {
    var w := s.workers[t];
    if w.pc.Identify? {
      s' := IdentifyStep(s, t, pick);
      ThereIdentify(s, t, pick);
    } else if w.pc.SendCreate? || w.pc.AwaitCreate? || w.pc.SendEdit? || w.pc.AwaitEdit? || w.pc.SendDelete?
              || w.pc.AwaitDelete? {
      s' := ThereCommand(s, t, pick);
    } else if LeasePc(w.pc) {
      s' := AssertLease(s, t, w.Go(LeaseNext(w.pc)));
    } else if RowPc(w.pc) {
      s' := ThereWrite(s, t, pick);
    } else {
      s' := Act(s, t, pick);
      ThereLoop(s, t, pick);
    }
  }

  lemma ThereLoop(s: State, t: Token, pick: Cid)
    requires t < |s.workers| && ShapeInv(s.job, s.workers[t]) && !RowPc(s.workers[t].pc) && ThereIn(s, t)
    ensures ThereIn(Act(s, t, pick), t)
  {
  }

  lemma ThereIdentify(s: State, t: Token, pick: Cid)
    requires t < |s.workers| && ShapeInv(s.job, s.workers[t]) && s.workers[t].pc.Identify? && ThereIn(s, t)
    ensures ThereIn(IdentifyStep(s, t, pick), t)
  {
    var w := s.workers[t];
    if w.pc.todo == {} {
      ThereDecided(s.job, s.g, w, w.pc.owned);
    }
  }

  lemma ThereDecided(job: Job, g: Shared, w: Worker, owned: seq<Cid>)
    requires AtRow(job, w) && ChannelsThere(g, w) && w.pc.Identify? && w.pc.owned == owned
    ensures ChannelsThere(g, Decide(job, w, owned))
  {
    if |owned| == 1 {
      assert owned[0] in owned;
      ThereFound(g, w, owned[0], CidLease);
      ThereFound(g, w, owned[0], RowCatch);
      ThereFound(g, w, owned[0], IntentLease);
    }
  }

  lemma ThereFound(g: Shared, w: Worker, c: Cid, pc: Pc)
    requires 0 <= w.idx < |w.rows| && ChannelsThere(g, w) && c in g.server && !pc.Identify? && !pc.AwaitCreate?
    ensures ChannelsThere(g, w.Local(w.rows[w.idx].(cid := Some(c))).Go(pc))
  {
  }

  lemma ThereCommand(s: State, t: Token, pick: Cid) returns (s': State)
    requires t < |s.workers| && ShapeInv(s.job, s.workers[t]) && PcInv(s.job, s.g, t, s.workers[t])
    requires |s.g.rows| == |s.job.depths| && ThereIn(s, t)
    requires var pc := s.workers[t].pc;
      pc.SendCreate? || pc.AwaitCreate? || pc.SendEdit? || pc.AwaitEdit? || pc.SendDelete? || pc.AwaitDelete?
    ensures s' == ActOnRow(s, t, pick) && ThereIn(s', t)
  {
    var w := s.workers[t];
    if w.pc.SendCreate? {
      s' := SendStep(s, t, CreateFor(w), AwaitCreate);
    } else if w.pc.AwaitCreate? {
      s' := AwaitCreateStep(s, t);
    } else if w.pc.SendEdit? {
      s' := SendStep(s, t, EditCmd(w.idx, w.rows[w.idx].cid.value), AwaitEdit);
    } else if w.pc.AwaitEdit? {
      s' := AwaitEditStep(s, t);
    } else if w.pc.SendDelete? {
      s' := SendStep(s, t, DeleteCmd(w.idx, w.rows[w.idx].cid.value), AwaitDelete);
    } else {
      s' := AwaitDeleteStep(s, t);
    }
  }

  lemma ThereWrite(s: State, t: Token, pick: Cid) returns (s': State)
    requires t < |s.workers| && ShapeInv(s.job, s.workers[t]) && |s.g.rows| == |s.job.depths| && ThereIn(s, t)
    requires var pc := s.workers[t].pc;
      || pc.WriteParent? || pc.Latch? || pc.WriteCid? || pc.SaveImage? || pc.WriteSaved?
      || pc.WriteIntent? || pc.MarkDeleted? || pc.RowCatch?
    ensures s' == ActOnRow(s, t, pick) && ThereIn(s', t)
  {
    var w := s.workers[t];
    if w.pc.WriteParent? {
      s' := WriteParentStep(s, t);
      ThereParent(s, t);
    } else if w.pc.Latch? {
      s' := LatchStep(s, t);
      ThereLatch(s, t);
    } else if w.pc.WriteCid? {
      s' := WriteCidStep(s, t);
      ThereCid(s, t);
    } else if w.pc.SaveImage? {
      s' := SaveImageStep(s, t);
      ThereImage(s, t);
    } else {
      s' := ThereLast(s, t, pick);
    }
  }

  lemma ThereLast(s: State, t: Token, pick: Cid) returns (s': State)
    requires t < |s.workers| && ShapeInv(s.job, s.workers[t]) && |s.g.rows| == |s.job.depths| && ThereIn(s, t)
    requires var pc := s.workers[t].pc; pc.WriteSaved? || pc.WriteIntent? || pc.MarkDeleted? || pc.RowCatch?
    ensures s' == ActOnRow(s, t, pick) && ThereIn(s', t)
  {
    var w := s.workers[t];
    if w.pc.WriteSaved? {
      s' := WriteSavedStep(s, t);
    } else if w.pc.WriteIntent? {
      s' := WriteIntentStep(s, t);
    } else if w.pc.MarkDeleted? {
      s' := MarkDeletedStep(s, t);
      ThereMark(s, t);
    } else {
      s' := RowCatchStep(s, t);
      ThereCatch(s, t);
    }
  }

  lemma ThereParent(s: State, t: Token)
    requires t < |s.workers| && ShapeInv(s.job, s.workers[t]) && |s.g.rows| == |s.job.depths| && ThereIn(s, t)
    requires s.workers[t].pc.WriteParent?
    ensures ThereIn(WriteParentStep(s, t), t)
  {
  }

  lemma ThereLatch(s: State, t: Token)
    requires t < |s.workers| && ShapeInv(s.job, s.workers[t]) && |s.g.rows| == |s.job.depths| && ThereIn(s, t)
    requires s.workers[t].pc.Latch?
    ensures ThereIn(LatchStep(s, t), t)
  {
  }

  lemma ThereCid(s: State, t: Token)
    requires t < |s.workers| && ShapeInv(s.job, s.workers[t]) && |s.g.rows| == |s.job.depths| && ThereIn(s, t)
    requires s.workers[t].pc.WriteCid?
    ensures ThereIn(WriteCidStep(s, t), t)
  {
  }

  lemma ThereImage(s: State, t: Token)
    requires t < |s.workers| && ShapeInv(s.job, s.workers[t]) && |s.g.rows| == |s.job.depths| && ThereIn(s, t)
    requires s.workers[t].pc.SaveImage?
    ensures ThereIn(SaveImageStep(s, t), t)
  {
  }

  lemma ThereMark(s: State, t: Token)
    requires t < |s.workers| && ShapeInv(s.job, s.workers[t]) && |s.g.rows| == |s.job.depths| && ThereIn(s, t)
    requires s.workers[t].pc.MarkDeleted?
    ensures ThereIn(MarkDeletedStep(s, t), t)
  {
  }

  lemma ThereCatch(s: State, t: Token)
    requires t < |s.workers| && ShapeInv(s.job, s.workers[t]) && |s.g.rows| == |s.job.depths| && ThereIn(s, t)
    requires s.workers[t].pc.RowCatch?
    ensures ThereIn(RowCatchStep(s, t), t)
  {
  }

  lemma ThereDelivers(s: State, t: Token, c: Cid)
    requires t < |s.workers| && ShapeInv(s.job, s.workers[t]) && PcInv(s.job, s.g, t, s.workers[t]) && ThereIn(s, t)
    ensures ThereIn(Deliver(s, t, c), t)
  {
  }

  lemma ThereFinishes(s: State, t: Token)
    requires ThereIn(s, t)
    ensures ThereIn(Finish(s, t), t)
  {
    var w, s' := s.workers[t], Finish(s, t);
    assert s'.workers[t] == w.(outer := s'.workers[t].outer) && s'.g == s.g.(run := s'.g.run);
  }

  lemma ThereNext(s: State, t: Token, e: Event) returns (s': State)
    requires Inv(s) && ThereIn(s, t) && Calm(e, t)
    ensures s' == Next(s, e) && ThereIn(s', t)
  {
    assert WorkerInv(s.job, s.g, t, s.workers[t]);
    if e.Acts? {
      NextActs(s, t, e.pick);
      s' := ThereActs(s, t, e.pick);
    } else if e.Delivers? {
      NextDelivers(s, t, e.cid);
      s' := Deliver(s, t, e.cid);
      ThereDelivers(s, t, e.cid);
    } else if e.Finishes? {
      NextFinishes(s, t);
      s' := Finish(s, t);
      ThereFinishes(s, t);
    } else {
      s' := WaitsNext(s, t, e);
    }
  }

  lemma {:induction false} ThereRun(s: State, kind: Kind, events: seq<Event>)
    requires Inv(s) && Started(s, Claim(s, kind)) && AllCalm(events, |s.workers|)
    ensures ThereIn(Run(Claim(s, kind), events), |s.workers|) && Inv(Run(Claim(s, kind), events))
  {
    ClaimInv(s, kind);
    if events != [] {
      ThereRun(s, kind, events[..|events| - 1]);
      var s' := ThereNext(Run(Claim(s, kind), events[..|events| - 1]), |s.workers|, events[|events| - 1]);
      NextInv(Run(Claim(s, kind), events[..|events| - 1]), events[|events| - 1]);
    }
  }

  /** Undisturbed work gets to its end: whatever state the run was in, and however far the worker
      got, it can go on to its end, and no step of it that changes anything leads away from
      there (`WorkEnds`). */
  lemma {:induction false} UndisturbedEnds(s: State, kind: Kind, events: seq<Event>, rank: Rank)
    returns (more: seq<Event>)
    requires Inv(s) && Started(s, Claim(s, kind)) && AllCalm(events, |s.workers|)
    requires rank == RankAfter(Claim(s, kind), |s.workers|, events)
    ensures events <= more && AllCalm(more, |s.workers|) && EndsBy(Claim(s, kind), |s.workers|, more)
    decreases rank.outer, rank.rows, rank.pc, rank.todo, rank.flight
  {
    var t, s1 := |s.workers|, Claim(s, kind);
    ThereRun(s, kind, events);
    if Run(s1, events).workers[t].outer == Gone {
      more := events;
    } else {
      var next := OneCalmStep(s1, t, events);
      more := UndisturbedEnds(s, kind, next, RankAfter(s1, t, next));
    }
  }
}
