/** Who gets to work on a run, for how long, and what is left written when it stops. */
module RunClaims {
  import opened Wrappers
  import opened TreeBuilders
  import opened RunMachine
  import opened RunInvariant
  import opened RunCommands
  import opened RunReachable
  import opened RunTheorems
  import opened RunCalm

  /** A worker was started. */
  predicate Started(s: State, s': State) {
    |s'.workers| == |s.workers| + 1
  }

  /** A claim starts a worker if and only if no lease is running and the status allows it: a resume
      may begin, go on after a crash or try again after a failure; an undo may begin at any time
      and be repeated until the run is undone. Else nothing at all changes. */
  lemma ClaimIff(s: State, kind: Kind)
    ensures var s' := Claim(s, kind);
      Started(s, s') <==>
        && (s.g.run.leaseUntil == None || s.g.run.leaseUntil.value < s.g.now)
        && (match kind
            case Resume =>
              s.g.run.status == Pending || s.g.run.status == Running || s.g.run.status == PartialFailure
            case Undo =>
              || s.g.run.status == Pending || s.g.run.status == Running || s.g.run.status == PartialFailure
              || s.g.run.status == Completed || s.g.run.status == Undoing || s.g.run.status == UndoPartial)
    ensures var s' := Claim(s, kind);
      !Started(s, s') ==> s' == s
  {
  }

  /** The new worker alone holds the lease, for a minute, has loaded nothing yet, and takes the
      rows from the first one if it resumes and from the last one if it undoes. */
  lemma ClaimStarts(s: State, kind: Kind)
    requires Started(s, Claim(s, kind))
    ensures var s' := Claim(s, kind);
      var w := s'.workers[|s.workers|];
      && s'.g == s.g.(run := RunRow(if kind == Resume then Running else Undoing,
                                    Some(|s.workers|), Some(s.g.now + 60000)))
      && s'.job == s.job && s'.workers[..|s.workers|] == s.workers
      && w.kind == kind && w.pc == Load && w.outer == Inside && w.flight == NoFlight && !w.failed && !w.stopped
      && w.idx == (if kind == Resume then 0 else |s.job.depths| - 1)
      && (forall t :: Held(s'.g, t) <==> t == |s.workers|)
  {
  }

  /** The run as a claim meets it after `ms` more milliseconds. */
  function Later(s: State, ms: nat): State {
    Next(s, Ticks(ms))
  }

  /** Waiting long enough always lets the next resume begin, unless the run is completed or was
      undone, and the next undo, unless the run is undone. */
  lemma ClaimComes(s: State, kind: Kind) returns (ms: nat)
    requires match kind
             case Resume => s.g.run.status != Completed && !UndoSide(s.g.run.status)
             case Undo => s.g.run.status != Undone
    ensures Started(Later(s, ms), Claim(Later(s, ms), kind))
  {
    match s.g.run.leaseUntil {
      case None => ms := 0;
      case Some(u) => ms := u + 1;
    }
  }

  // ------------------------------------------------------------ the lease

  predicate LeaseBounded(g: Shared) {
    g.run.leaseUntil.Some? ==> g.run.leaseUntil.value <= g.now + 60000
  }

  /** The lease runs at least until `until`. */
  predicate HeldUntil(g: Shared, t: Token, until: nat) {
    Held(g, t) && g.run.leaseUntil.Some? && until <= g.run.leaseUntil.value && LeaseBounded(g)
  }

  predicate NotReleased(events: seq<Event>, t: Token) {
    forall k :: 0 <= k < |events| ==> !(events[k].Finishes? && events[k].t == t)
  }

  /** A lease lasts: until it expires nobody but its holder can end it, whatever other workers,
      the server and outsiders do. */
  lemma {:induction false} LeaseLasts(s: State, t: Token, until: nat, events: seq<Event>)
    requires t < |s.workers| && HeldUntil(s.g, t, until) && until <= s.g.now + 60000
    requires NotReleased(events, t) && Run(s, events).g.now <= until
    ensures HeldUntil(Run(s, events).g, t, until) && s.g.now <= Run(s, events).g.now
  {
    if events != [] {
      var before, e := events[..|events| - 1], events[|events| - 1];
      var s1 := Run(s, before);
      ClockRuns(s1, e);
      LeaseLasts(s, t, until, before);
      LeaseStep(s1, t, until, e);
    }
  }

  lemma ClockRuns(s: State, e: Event)
    ensures s.g.now <= Next(s, e).g.now
  {
    if e.Acts? && e.t < |s.workers| {
      ActKeepsRun(s, e.t, e.pick);
    } else if e.Outsiders? {
      OutsiderClock(s.g, e.o);
    } else if e.Delivers? && e.t < |s.workers| {
      DeliverClock(s, e.t, e.cid);
    }
  }

  lemma OutsiderClock(g: Shared, o: Outside)
    ensures Outsider(g, o).now == g.now && Outsider(g, o).run == g.run
  {
  }

  lemma DeliverClock(s: State, t: Token, c: Cid)
    requires t < |s.workers|
    ensures Deliver(s, t, c).g.now == s.g.now && Deliver(s, t, c).g.run == s.g.run
  {
  }

  lemma LeaseStep(s: State, t: Token, until: nat, e: Event)
    requires HeldUntil(s.g, t, until) && Next(s, e).g.now <= until <= s.g.now + 60000 && s.g.now <= Next(s, e).g.now
    requires !(e.Finishes? && e.t == t)
    ensures HeldUntil(Next(s, e).g, t, until)
  {
    if e.Acts? && e.t < |s.workers| {
      ActKeepsRun(s, e.t, e.pick);
    } else if e.Outsiders? {
      OutsiderClock(s.g, e.o);
    } else if e.Delivers? && e.t < |s.workers| {
      DeliverClock(s, e.t, e.cid);
    } else if e.Finishes? && e.t < |s.workers| {
      OthersFinish(s, e.t);
    } else if e.Fails? || e.HitsDeadline? || e.FinishFails? || e.Refuses? {
      FaultKeepsRun(s, e);
    }
  }

  lemma OthersFinish(s: State, u: Token)
    requires u < |s.workers| && !Held(s.g, u)
    ensures Finish(s, u).g == s.g
  {
  }

  /** A worker gets past a lease check exactly if the lease is its own, and then has it for
      another minute; else its row fails and nothing is written. */
  lemma LeaseChecked(s: State, t: Token, pick: Cid)
    requires t < |s.workers| && AtRow(s.job, s.workers[t]) && |s.g.rows| == |s.job.depths|
    requires LeasePc(s.workers[t].pc)
    ensures var w, s' := s.workers[t], Act(s, t, pick);
      && t < |s'.workers|
      && (Held(s.g, t) ==>
            && s'.workers[t] == w.(pc := LeaseNext(w.pc)) && HeldUntil(s'.g, t, s.g.now + 60000)
            && s'.g == s.g.(run := s.g.run.(leaseUntil := Some(s.g.now + 60000))))
      && (!Held(s.g, t) ==> s'.workers[t] == w.(pc := RowCatch) && s'.g == s.g)
  {
    assert Act(s, t, pick) == AssertLease(s, t, s.workers[t].Go(LeaseNext(s.workers[t].pc)));
  }

  // ------------------------------------------------------------ writes to the row table

  /** What a resume may write to its current row `r`: the parent, the announcement, an unknown
      outcome, the channel's id, the saved state. */
  predicate ResumeWrites(w: Worker, r: Row, r': Row)
    requires 0 <= w.idx < |w.rows|
  {
    var local := w.rows[w.idx];
    || r' == r.(parentCid := local.parentCid)
    || (r' == r.(status := Creating) && local.cid.None? && local.status != Creating && local.status != Uncertain)
    || (r' == r.(status := Uncertain) && local.cid.None? && local.status == Creating)
    || (r' == r.(cid := local.cid, status := Created) && local.cid.Some?)
    || (r' == r.(status := Saved, image := None) && local.cid.Some?)
  }

  /** And an undo: the intent with the channel's id, and the deletion. */
  predicate UndoWrites(w: Worker, r: Row, r': Row)
    requires 0 <= w.idx < |w.rows|
  {
    var local := w.rows[w.idx];
    || (r' == r.(cid := local.cid, status := Deleting) && local.cid.Some?)
    || r' == r.(cid := local.cid, status := Deleted, image := None)
  }

  predicate WritesRow(w: Worker, p: int, r: Row, r': Row) {
    && 0 <= w.idx < |w.rows| && p == w.idx
    && (match w.kind case Resume => ResumeWrites(w, r, r') case Undo => UndoWrites(w, r, r'))
  }

  /** Whatever happens, a row changes only by the lease holder working on it, in one of these
      seven ways. */
  lemma RowsChangeSo(s: State, e: Event, p: nat)
    requires Inv(s) && p < |s.g.rows|
    ensures p < |Next(s, e).g.rows|
    ensures Next(s, e).g.rows[p] != s.g.rows[p] ==>
              && e.Acts? && e.t < |s.workers| && Held(s.g, e.t)
              && WritesRow(s.workers[e.t], p, s.g.rows[p], Next(s, e).g.rows[p])
  {
    Fencing(s, e);
    if e.Acts? && e.t < |s.workers| {
      assert WorkerInv(s.job, s.g, e.t, s.workers[e.t]);
      NextActs(s, e.t, e.pick);
      ActWrites(s, e.t, e.pick, p);
    }
  }

  /** Row `p` stays, or is the worker's and changes in one of the ways above. */
  predicate RowOk(s: State, t: Token, p: nat, s': State) {
    && t < |s.workers| && p < |s.g.rows| == |s'.g.rows|
    && (s'.g.rows[p] == s.g.rows[p] || WritesRow(s.workers[t], p, s.g.rows[p], s'.g.rows[p]))
  }

  lemma ActWrites(s: State, t: Token, pick: Cid, p: nat)
    requires t < |s.workers| && ShapeInv(s.job, s.workers[t]) && PcInv(s.job, s.g, t, s.workers[t])
    requires p < |s.g.rows| == |s.job.depths|
    ensures RowOk(s, t, p, Act(s, t, pick))
  {
    var w := s.workers[t];
    if RowPc(w.pc) {
      if w.pc.WriteParent? || w.pc.Latch? || w.pc.WriteCid? || w.pc.WriteSaved? {
        ForthWrites(s, t, pick, p);
      } else if w.pc.WriteIntent? || w.pc.MarkDeleted? || w.pc.RowCatch? {
        BackWrites(s, t, pick, p);
      } else {
        NoWrites(s, t, pick);
      }
    }
  }

  lemma ForthWrites(s: State, t: Token, pick: Cid, p: nat)
    requires t < |s.workers| && ShapeInv(s.job, s.workers[t]) && PcInv(s.job, s.g, t, s.workers[t])
    requires p < |s.g.rows| == |s.job.depths|
    requires var pc := s.workers[t].pc; pc.WriteParent? || pc.Latch? || pc.WriteCid? || pc.WriteSaved?
    ensures RowOk(s, t, p, ActOnRow(s, t, pick))
  {
  }

  lemma BackWrites(s: State, t: Token, pick: Cid, p: nat)
    requires t < |s.workers| && ShapeInv(s.job, s.workers[t]) && PcInv(s.job, s.g, t, s.workers[t])
    requires p < |s.g.rows| == |s.job.depths|
    requires var pc := s.workers[t].pc; pc.WriteIntent? || pc.MarkDeleted? || pc.RowCatch?
    ensures RowOk(s, t, p, ActOnRow(s, t, pick))
  {
  }

  lemma NoWrites(s: State, t: Token, pick: Cid)
    requires t < |s.workers| && ShapeInv(s.job, s.workers[t]) && |s.g.rows| == |s.job.depths|
    requires var pc := s.workers[t].pc;
      && RowPc(pc) && !pc.WriteParent? && !pc.Latch? && !pc.WriteCid? && !pc.WriteSaved?
      && !pc.WriteIntent? && !pc.MarkDeleted? && !pc.RowCatch?
    ensures ActOnRow(s, t, pick).g.rows == s.g.rows
  {
    if s.workers[t].pc.Identify? {
      assert IdentifyStep(s, t, pick).g == s.g;
    } else if !LeasePc(s.workers[t].pc) {
      CommandsWriteNothing(s, t, pick);
    }
  }

  lemma CommandsWriteNothing(s: State, t: Token, pick: Cid)
    requires t < |s.workers| && ShapeInv(s.job, s.workers[t]) && |s.g.rows| == |s.job.depths|
    requires var pc := s.workers[t].pc;
      || pc.SendCreate? || pc.AwaitCreate? || pc.SaveImage? || pc.SendEdit? || pc.AwaitEdit?
      || pc.SendDelete? || pc.AwaitDelete?
    ensures ActOnRow(s, t, pick).g.rows == s.g.rows
  {
  }

  // ------------------------------------------------------------ what a worker leaves written

  /** The code around the loop: the loop's result counts only without a failure and on a connection
      never stopped; the final status and the release are written only under the lease. */
  lemma EndIs(s: State, t: Token)
    requires t < |s.workers|
    ensures var w, s' := s.workers[t], Finish(s, t);
      && t < |s'.workers|
      && (w.outer == Inside && w.pc.BodyDone? ==>
            s'.g == s.g && s'.workers[t].outer == Closing(w.pc == BodyDone(true) && !w.failed && !w.stopped))
      && (w.outer == Inside && !w.pc.BodyDone? ==> s' == s)
      && (w.outer.Closing? ==> s'.workers[t].outer == Releasing)
      && (w.outer.Closing? && Held(s.g, t) ==>
            s'.g == s.g.(run := s.g.run.(status :=
              match w.kind
              case Resume => if w.outer.ok then Completed else PartialFailure
              case Undo => if w.outer.ok then Undone else UndoPartial)))
      && (w.outer == Releasing ==> s'.workers[t].outer == Gone)
      && (w.outer == Releasing && Held(s.g, t) ==> s'.g == s.g.(run := RunRow(s.g.run.status, None, None)))
      && ((w.outer.Closing? || w.outer == Releasing) && !Held(s.g, t) ==> s'.g == s.g)
      && (w.outer == Gone ==> s' == s)
  {
  }

  /** A resume that cannot store its success tries to store a failure; else the worker goes on to
      release the lease, and leaves if it cannot. */
  lemma EndFails(s: State, t: Token)
    requires t < |s.workers|
    ensures var w, s' := s.workers[t], FinishFail(s, t);
      && s'.g == s.g && t < |s'.workers|
      && s'.workers[t].outer ==
           (if w.outer == Closing(true) && w.kind == Resume then Closing(false)
            else if w.outer.Closing? then Releasing
            else if w.outer == Releasing then Gone
            else w.outer)
  {
  }

  /** The deadline ends the waiting for the loop, which then counts as failed. */
  lemma DeadlineIs(s: State, t: Token)
    requires t < |s.workers|
    ensures var w, s' := s.workers[t], Deadline(s, t);
      && s'.g == s.g && t < |s'.workers|
      && (w.outer == Inside && w.pc != Load ==> s'.workers[t] == w.(outer := Closing(false), stopped := true))
      && (w.outer != Inside || w.pc == Load ==> s' == s)
  {
  }

  /** The heartbeat renews the lease for a minute as long as it is the worker's and the work or the
      final write is under way. */
  lemma BeatIs(s: State, t: Token)
    requires t < |s.workers|
    ensures var w, s' := s.workers[t], Next(s, Beats(t));
      && s'.workers == s.workers
      && (Held(s.g, t) && (w.outer == Inside || w.outer.Closing?) ==> HeldUntil(s'.g, t, s.g.now + 60000))
      && (!(Held(s.g, t) && (w.outer == Inside || w.outer.Closing?)) ==> s' == s)
  {
  }

  /** A worker at its undisturbed work: it holds the lease until it releases it, and has written
      one of the two final states by then. */
  predicate AtWork(s: State, t: Token, kind: Kind) {
    && t < |s.workers| && s.workers[t].kind == kind
    && match s.workers[t].outer
       case Inside => Held(s.g, t) && s.g.run.status == (if kind == Resume then Running else Undoing)
       case Closing(_) => Held(s.g, t) && s.g.run.status == (if kind == Resume then Running else Undoing)
       case Releasing => Held(s.g, t) && Final(s.g.run.status, kind)
       case Gone => s.g.run.leaseToken == None && s.g.run.leaseUntil == None && Final(s.g.run.status, kind)
  }

  predicate Final(status: RunStatus, kind: Kind) {
    match kind
    case Resume => status == Completed || status == PartialFailure
    case Undo => status == Undone || status == UndoPartial
  }

  predicate SameKind(s: State, t: Token, s': State) {
    && t < |s.workers| && t < |s'.workers|
    && s'.workers[t].kind == s.workers[t].kind && s'.workers[t].outer == s.workers[t].outer
  }

  lemma ActKind(s: State, t: Token, pick: Cid)
    requires t < |s.workers| && ShapeInv(s.job, s.workers[t])
    ensures SameKind(s, t, Act(s, t, pick))
  {
    var w := s.workers[t];
    if RowPc(w.pc) && |s.g.rows| == |s.job.depths| {
      RowKind(s, t, pick);
    }
  }

  lemma RowKind(s: State, t: Token, pick: Cid)
    requires t < |s.workers| && ShapeInv(s.job, s.workers[t]) && RowPc(s.workers[t].pc) && |s.g.rows| == |s.job.depths|
    ensures SameKind(s, t, ActOnRow(s, t, pick))
  {
    var w := s.workers[t];
    if w.pc.Identify? {
      IdentifyKind(s, t, pick);
    } else if UndoPc(w.pc) || w.pc.RowCatch? {
      BackKind(s, t, pick);
    }
  }

  lemma BackKind(s: State, t: Token, pick: Cid)
    requires t < |s.workers| && ShapeInv(s.job, s.workers[t]) && |s.g.rows| == |s.job.depths|
    requires UndoPc(s.workers[t].pc) || s.workers[t].pc.RowCatch?
    ensures SameKind(s, t, ActOnRow(s, t, pick))
  {
  }

  lemma IdentifyKind(s: State, t: Token, pick: Cid)
    requires t < |s.workers| && ShapeInv(s.job, s.workers[t]) && s.workers[t].pc.Identify?
    ensures SameKind(s, t, IdentifyStep(s, t, pick))
  {
    var w := s.workers[t];
    if w.pc.todo == {} {
      DecideOnward(s.job, w, w.pc.owned);
    }
  }

  lemma DeliverKind(s: State, t: Token, c: Cid)
    requires t < |s.workers|
    ensures SameKind(s, t, Deliver(s, t, c))
  {
  }

  lemma AtWorkNext(s: State, t: Token, kind: Kind, e: Event)
    requires Inv(s) && AtWork(s, t, kind) && Calm(e, t)
    ensures AtWork(Next(s, e), t, kind)
  {
    if e.Acts? {
      NextActs(s, t, e.pick);
      assert WorkerInv(s.job, s.g, t, s.workers[t]);
      ActKind(s, t, e.pick);
      ActKeepsRun(s, t, e.pick);
      GoneIdle(s, t, e.pick);
    } else if e.Delivers? {
      NextDelivers(s, t, e.cid);
      DeliverKind(s, t, e.cid);
      DeliverClock(s, t, e.cid);
    } else if e.Finishes? {
      NextFinishes(s, t);
      AtWorkFinishes(s, t, kind);
    }
  }

  /** Without the lease nothing is written to the run row. */
  lemma GoneIdle(s: State, t: Token, pick: Cid)
    requires t < |s.workers|
    ensures !Held(s.g, t) ==> Act(s, t, pick).g.run == s.g.run
  {
    ActKeepsRun(s, t, pick);
  }

  lemma AtWorkFinishes(s: State, t: Token, kind: Kind)
    requires AtWork(s, t, kind)
    ensures AtWork(Finish(s, t), t, kind)
  {
  }

  lemma {:induction false} AtWorkRun(s: State, kind: Kind, events: seq<Event>)
    requires Inv(s) && Started(s, Claim(s, kind)) && AllCalm(events, |s.workers|)
    ensures AtWork(Run(Claim(s, kind), events), |s.workers|, kind) && Inv(Run(Claim(s, kind), events))
  {
    ClaimInv(s, kind);
    if events != [] {
      AtWorkRun(s, kind, events[..|events| - 1]);
      AtWorkNext(Run(Claim(s, kind), events[..|events| - 1]), |s.workers|, kind, events[|events| - 1]);
      NextInv(Run(Claim(s, kind), events[..|events| - 1]), events[|events| - 1]);
    }
  }

  /** When undisturbed work is over, the lease is given up and a final state is written: completed
      or failed, undone or partly undone; so the run can be claimed again at once. */
  lemma WorkLeaves(s: State, kind: Kind, events: seq<Event>)
    requires Inv(s) && Started(s, Claim(s, kind)) && AllCalm(events, |s.workers|)
    requires EndsBy(Claim(s, kind), |s.workers|, events)
    ensures var run := Run(Claim(s, kind), events).g.run;
      && run.leaseToken == None && run.leaseUntil == None
      && (kind == Resume ==> run.status == Completed || run.status == PartialFailure)
      && (kind == Undo ==> run.status == Undone || run.status == UndoPartial)
  {
    AtWorkRun(s, kind, events);
  }
}
