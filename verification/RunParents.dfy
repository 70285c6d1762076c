/** The row table always knows where a row's channel was created: from its announcement on, a row
    holds the parent the plan gives it. */
module RunParents {
  import opened Wrappers
  import opened TreeBuilders
  import opened ForestPlan
  import opened RunMachine
  import opened RunInvariant
  import opened RunCommands
  import opened RunReachable
  import opened RunRecovery

  /** An announced row holds its planned parent. */
  predicate ParentKept(job: Job, g: Shared, p: int) {
    0 <= p < |g.rows| == |job.depths| && p in g.latchedBy ==> ParentIs(job, g, p, g.rows[p].parentCid)
  }

  /** So does the row a holder is about to announce. */
  predicate HolderParent(g: Shared, t: Token, w: Worker) {
    Held(g, t) && w.kind == Resume && (w.pc.Identify? || w.pc.Latch?) && 0 <= w.idx < |w.rows| == |g.rows| ==>
      g.rows[w.idx].parentCid == w.rows[w.idx].parentCid
  }

  ghost predicate ParentsInv(s: State) {
    && (forall p :: ParentKept(s.job, s.g, p))
    && (forall t :: 0 <= t < |s.workers| ==> HolderParent(s.g, t, s.workers[t]))
  }

  /** A resume works on its row under the planned parent. */
  lemma PlannedParent(job: Job, g: Shared, t: Token, w: Worker)
    requires WorkerInv(job, g, t, w) && w.kind == Resume && (ResumePc(w.pc) || w.pc.Identify?)
    ensures ParentIs(job, g, w.idx, w.rows[w.idx].parentCid)
  {
    var cids, p := LocalCids(w), w.idx;
    assert ParentSlot(job.depths, cids, job.root, p, w.parents, job.depths[p]);
    var parent := ParentOf(job.depths, p);
    if parent.Under? {
      assert parent.row in cids && LocalInv(job, g, w, parent.row);
    }
  }

  /** Where the row's channel was created. */
  lemma BornUnderParent(s: State, p: nat)
    requires Inv(s) && ParentsInv(s) && p in s.g.born
    ensures p < |s.g.rows| && s.g.rows[p].parentCid == s.g.born[p].link.parent
  {
    assert BornInv(s.job, s.g, p) && RowInv(s.job, s.g, p) && ParentKept(s.job, s.g, p);
  }

  // ------------------------------------------------------------ steps

  /** A step of worker `t` that stores no parent and announces nothing. */
  predicate ParentsSame(s: State, t: Token, s': State) {
    && t < |s.workers| == |s'.workers| && s'.job == s.job
    && |s'.g.rows| == |s.g.rows| && s'.g.latchedBy == s.g.latchedBy && s'.g.born == s.g.born
    && (forall p :: 0 <= p < |s.g.rows| ==> s'.g.rows[p].parentCid == s.g.rows[p].parentCid)
    && (s'.g.run.leaseToken == s.g.run.leaseToken || s'.g.run.leaseToken == None)
    && (forall u :: 0 <= u < |s.workers| && u != t ==> s'.workers[u] == s.workers[u])
    && var w, w' := s.workers[t], s'.workers[t];
      (w'.kind == Resume && (w'.pc.Identify? || w'.pc.Latch?) ==>
         && w.kind == Resume && (w.pc.Identify? || w.pc.Latch?)
         && w'.idx == w.idx && w'.rows == w.rows)
  }

  lemma SameKeeps(s: State, t: Token, s': State)
    requires ParentsInv(s) && ParentsSame(s, t, s')
    ensures ParentsInv(s')
  {
    forall p ensures ParentKept(s'.job, s'.g, p) {
      assert ParentKept(s.job, s.g, p);
    }
    forall u | 0 <= u < |s'.workers| ensures HolderParent(s'.g, u, s'.workers[u]) {
      assert HolderParent(s.g, u, s.workers[u]);
    }
  }

  lemma WriteParentKeeps(s: State, t: Token)
    requires Inv(s) && ParentsInv(s) && t < |s.workers| && s.workers[t].pc.WriteParent?
    ensures ParentsInv(WriteParentStep(s, t))
  {
    var w, s' := s.workers[t], WriteParentStep(s, t);
    assert WorkerInv(s.job, s.g, t, w);
    PlannedParent(s.job, s.g, t, w);
    forall p ensures ParentKept(s'.job, s'.g, p) {
      assert ParentKept(s.job, s.g, p);
    }
    forall u | 0 <= u < |s'.workers| ensures HolderParent(s'.g, u, s'.workers[u]) {
      assert HolderParent(s.g, u, s.workers[u]);
    }
  }

  lemma LatchKeeps(s: State, t: Token)
    requires Inv(s) && ParentsInv(s) && t < |s.workers| && s.workers[t].pc.Latch?
    ensures ParentsInv(LatchStep(s, t))
  {
    var w, s' := s.workers[t], LatchStep(s, t);
    assert WorkerInv(s.job, s.g, t, w) && HolderParent(s.g, t, w);
    PlannedParent(s.job, s.g, t, w);
    forall p ensures ParentKept(s'.job, s'.g, p) {
      assert ParentKept(s.job, s.g, p);
    }
    forall u | 0 <= u < |s'.workers| ensures HolderParent(s'.g, u, s'.workers[u]) {
      assert HolderParent(s.g, u, s.workers[u]);
    }
  }

  lemma RowSame(s: State, t: Token, pick: Cid) returns (s': State)
    requires t < |s.workers| && ShapeInv(s.job, s.workers[t]) && |s.g.rows| == |s.job.depths|
    requires RowPc(s.workers[t].pc) && !s.workers[t].pc.WriteParent? && !s.workers[t].pc.Latch?
    ensures s' == ActOnRow(s, t, pick) && ParentsSame(s, t, s')
  {
    var w := s.workers[t];
    if w.pc.Identify? {
      s' := IdentifyStep(s, t, pick);
      IdentifySame(s, t, pick);
    } else if LeasePc(w.pc) {
      s' := AssertLease(s, t, w.Go(LeaseNext(w.pc)));
      LeaseSame(s, t);
    } else if UndoPc(w.pc) || w.pc.RowCatch? {
      s' := BackSame(s, t, pick);
    } else if w.pc.WriteCid? || w.pc.SaveImage? || w.pc.WriteSaved? {
      s' := StoreSame(s, t, pick);
    } else {
      s' := ActOnRow(s, t, pick);
      CommandSame(s, t, pick);
    }
  }

  lemma IdentifySame(s: State, t: Token, pick: Cid)
    requires t < |s.workers| && ShapeInv(s.job, s.workers[t]) && s.workers[t].pc.Identify?
    ensures ParentsSame(s, t, IdentifyStep(s, t, pick))
  {
    var w := s.workers[t];
    if w.pc.todo == {} {
      DecideSame(s.job, w, w.pc.owned);
    }
  }

  lemma DecideSame(job: Job, w: Worker, owned: seq<Cid>)
    requires 0 <= w.idx < |w.rows| && w.idx < |job.names|
    ensures var w' := Decide(job, w, owned);
      w'.kind == w.kind && w'.idx == w.idx && !w'.pc.Identify? && (w'.pc.Latch? ==> w'.rows == w.rows)
  {
    if |owned| == 1 {
      var found := w.Local(w.rows[w.idx].(cid := Some(owned[0])));
      assert found.kind == w.kind && found.idx == w.idx;
    }
  }

  lemma LeaseSame(s: State, t: Token)
    requires t < |s.workers| && LeasePc(s.workers[t].pc)
    ensures ParentsSame(s, t, AssertLease(s, t, s.workers[t].Go(LeaseNext(s.workers[t].pc))))
  {
  }

  lemma CommandSame(s: State, t: Token, pick: Cid)
    requires t < |s.workers| && ShapeInv(s.job, s.workers[t]) && |s.g.rows| == |s.job.depths|
    requires var pc := s.workers[t].pc; pc.SendCreate? || pc.AwaitCreate? || pc.SendEdit? || pc.AwaitEdit?
    ensures ParentsSame(s, t, ActOnRow(s, t, pick))
  {
  }

  lemma StoreSame(s: State, t: Token, pick: Cid) returns (s': State)
    requires t < |s.workers| && ShapeInv(s.job, s.workers[t]) && |s.g.rows| == |s.job.depths|
    requires var pc := s.workers[t].pc; pc.WriteCid? || pc.SaveImage? || pc.WriteSaved?
    ensures s' == ActOnRow(s, t, pick) && ParentsSame(s, t, s')
  {
    var w := s.workers[t];
    if w.pc.WriteCid? {
      s' := WriteCidStep(s, t);
    } else if w.pc.SaveImage? {
      s' := SaveImageStep(s, t);
      ImageSame(s, t);
    } else {
      s' := WriteSavedStep(s, t);
    }
  }

  lemma ImageSame(s: State, t: Token)
    requires t < |s.workers| && ShapeInv(s.job, s.workers[t]) && s.workers[t].pc.SaveImage?
    ensures ParentsSame(s, t, SaveImageStep(s, t))
  {
  }

  lemma BackSame(s: State, t: Token, pick: Cid) returns (s': State)
    requires t < |s.workers| && ShapeInv(s.job, s.workers[t]) && |s.g.rows| == |s.job.depths|
    requires (UndoPc(s.workers[t].pc) && !LeasePc(s.workers[t].pc)) || s.workers[t].pc.RowCatch?
    ensures s' == ActOnRow(s, t, pick) && ParentsSame(s, t, s')
  {
    var w := s.workers[t];
    if w.pc.WriteIntent? {
      s' := WriteIntentStep(s, t);
    } else if w.pc.MarkDeleted? {
      s' := MarkDeletedStep(s, t);
      MarkSame(s, t);
    } else if w.pc.RowCatch? {
      s' := RowCatchStep(s, t);
      CatchSame(s, t);
    } else if w.pc.SendDelete? {
      s' := SendStep(s, t, DeleteCmd(w.idx, w.rows[w.idx].cid.value), AwaitDelete);
    } else {
      s' := AwaitDeleteStep(s, t);
    }
  }

  lemma MarkSame(s: State, t: Token)
    requires t < |s.workers| && ShapeInv(s.job, s.workers[t]) && |s.g.rows| == |s.job.depths|
    requires s.workers[t].pc.MarkDeleted?
    ensures ParentsSame(s, t, MarkDeletedStep(s, t))
  {
  }

  lemma CatchSame(s: State, t: Token)
    requires t < |s.workers| && ShapeInv(s.job, s.workers[t]) && |s.g.rows| == |s.job.depths|
    requires s.workers[t].pc.RowCatch?
    ensures ParentsSame(s, t, RowCatchStep(s, t))
  {
  }

  lemma LoopSame(s: State, t: Token, pick: Cid)
    requires t < |s.workers| && ShapeInv(s.job, s.workers[t]) && !RowPc(s.workers[t].pc)
    ensures ParentsSame(s, t, Act(s, t, pick))
  {
  }

  lemma ActKeeps(s: State, t: Token, pick: Cid) returns (s': State)
    requires Inv(s) && ParentsInv(s) && t < |s.workers|
    ensures s' == Act(s, t, pick) && ParentsInv(s')
  {
    var w := s.workers[t];
    assert WorkerInv(s.job, s.g, t, w);
    if w.pc.WriteParent? {
      s' := WriteParentStep(s, t);
      WriteParentKeeps(s, t);
    } else if w.pc.Latch? {
      s' := LatchStep(s, t);
      LatchKeeps(s, t);
    } else if RowPc(w.pc) {
      s' := RowSame(s, t, pick);
      SameKeeps(s, t, s');
    } else {
      s' := Act(s, t, pick);
      LoopSame(s, t, pick);
      SameKeeps(s, t, s');
    }
  }

  lemma DeliverKeeps(s: State, t: Token, c: Cid)
    requires Inv(s) && ParentsInv(s) && t < |s.workers|
    ensures ParentsInv(Deliver(s, t, c))
  {
    var s' := Deliver(s, t, c);
    assert FlightInv(s.job, s.g, t, s.workers[t]);
    forall p ensures ParentKept(s'.job, s'.g, p) {
      assert ParentKept(s.job, s.g, p);
    }
    forall u | 0 <= u < |s'.workers| ensures HolderParent(s'.g, u, s'.workers[u]) {
      assert HolderParent(s.g, u, s.workers[u]);
    }
  }

  lemma ElseKeeps(s: State, e: Event)
    requires Inv(s) && ParentsInv(s) && !e.Acts? && !e.Delivers? && !e.ClaimBy? && !e.Outsiders? && !e.Ticks?
    ensures ParentsInv(Next(s, e))
  {
    if e.t < |s.workers| {
      ElseSame(s, e);
      SameKeeps(s, e.t, Next(s, e));
    }
  }

  lemma ElseSame(s: State, e: Event)
    requires !e.Acts? && !e.Delivers? && !e.ClaimBy? && !e.Outsiders? && !e.Ticks? && e.t < |s.workers|
    ensures ParentsSame(s, e.t, Next(s, e))
  {
    if e.Fails? {
      FailSame(s, e.t);
    } else if e.Finishes? {
      FinishSame(s, e.t);
    }
  }

  lemma FailSame(s: State, t: Token)
    requires t < |s.workers|
    ensures ParentsSame(s, t, Fail(s, t))
  {
  }

  lemma FinishSame(s: State, t: Token)
    requires t < |s.workers|
    ensures ParentsSame(s, t, Finish(s, t))
  {
    match s.workers[t].outer {
      case Inside => ReturnSame(s, t);
      case Closing(ok) =>
        OuterSame(s, t, Releasing, s.g.run);
        OuterSame(s, t, Releasing, s.g.run.(status := FinalStatus(s.workers[t].kind, ok)));
      case Releasing =>
        OuterSame(s, t, Gone, s.g.run);
        OuterSame(s, t, Gone, RunRow(s.g.run.status, None, None));
      case Gone =>
    }
  }

  lemma ReturnSame(s: State, t: Token)
    requires t < |s.workers| && s.workers[t].outer == Inside
    ensures ParentsSame(s, t, Finish(s, t))
  {
  }

  lemma OuterSame(s: State, t: Token, outer: Outer, run: RunRow)
    requires t < |s.workers| && (run.leaseToken == s.g.run.leaseToken || run.leaseToken == None)
    ensures ParentsSame(s, t, s.With(s.g.(run := run), t, s.workers[t].(outer := outer)))
  {
  }

  /** People and time. */
  lemma WorldKeeps(s: State, g: Shared)
    requires ParentsInv(s) && g.rows == s.g.rows && g.latchedBy == s.g.latchedBy && g.born == s.g.born && g.run == s.g.run
    ensures ParentsInv(s.(g := g))
  {
    forall p ensures ParentKept(s.job, g, p) {
      assert ParentKept(s.job, s.g, p);
    }
    forall u | 0 <= u < |s.workers| ensures HolderParent(g, u, s.workers[u]) {
      assert HolderParent(s.g, u, s.workers[u]);
    }
  }

  lemma ClaimKeeps(s: State, kind: Kind)
    requires Inv(s) && ParentsInv(s)
    ensures ParentsInv(Claim(s, kind))
  {
    var s' := Claim(s, kind);
    forall p ensures ParentKept(s'.job, s'.g, p) {
      assert ParentKept(s.job, s.g, p);
    }
    forall u | 0 <= u < |s'.workers| ensures HolderParent(s'.g, u, s'.workers[u]) {
      assert u < |s.workers| ==> HolderParent(s.g, u, s.workers[u]);
    }
  }

  lemma OutsiderSame(g: Shared, o: Outside)
    ensures var g' := Outsider(g, o);
      g'.rows == g.rows && g'.latchedBy == g.latchedBy && g'.born == g.born && g'.run == g.run
  {
  }

  lemma ParentsNext(s: State, e: Event)
    requires Inv(s) && ParentsInv(s)
    ensures ParentsInv(Next(s, e))
  {
    if e.ClaimBy? {
      ClaimKeeps(s, e.kind);
    } else if e.Outsiders? {
      OutsiderSame(s.g, e.o);
      WorldKeeps(s, Outsider(s.g, e.o));
    } else if e.Ticks? {
      WorldKeeps(s, s.g.(now := s.g.now + e.ms));
    } else if e.Acts? && e.t < |s.workers| {
      var s' := ActKeeps(s, e.t, e.pick);
    } else if e.Delivers? && e.t < |s.workers| {
      DeliverKeeps(s, e.t, e.cid);
    } else if !e.Acts? && !e.Delivers? {
      ElseKeeps(s, e);
    }
  }

  /** From the start on, over every sequence of events. */
  lemma {:induction false} ParentsRun(s: State, events: seq<Event>)
    requires Init(s)
    ensures Inv(Run(s, events)) && ParentsInv(Run(s, events))
  {
    if events == [] {
      InitInv(s);
    } else {
      ParentsRun(s, events[..|events| - 1]);
      NextInv(Run(s, events[..|events| - 1]), events[|events| - 1]);
      ParentsNext(Run(s, events[..|events| - 1]), events[|events| - 1]);
    }
  }
}
