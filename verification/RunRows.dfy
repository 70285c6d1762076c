/** The order in which rows are worked on, what a failure does to the rows after it, and what is left
    to a worker whose connection was stopped. */
module RunRows {
  import opened Wrappers
  import opened TreeBuilders
  import opened RunMachine
  import opened RunInvariant
  import opened RunCommands
  import opened RunReachable
  import opened RunTheorems
  import opened RunCalm
  import opened RunClaims
  import opened RunInspect
  import opened RunEnds

  // ------------------------------------------------------------ one step of the loop

  /** The loop moves on by one row: a resume when its row is saved, an undo when its row is deleted,
      was deleted when it loaded the table, or failed. */
  predicate MovesOn(w: Worker, g': Shared, idx: int) {
    && 0 <= w.idx < |w.rows| && w.idx < |g'.rows|
    && (match w.kind
        case Resume => idx == w.idx + 1 && w.pc.WriteSaved? && g'.rows[w.idx].status == Saved
        case Undo =>
          && idx == w.idx - 1
          && (w.pc == RowCatch || g'.rows[w.idx].status == Deleted || w.rows[w.idx].status == Deleted))
  }

  /** What the loaded copies say about deletion comes from the table. */
  predicate LoadedFrom(w: Worker, g: Shared, w': Worker) {
    && |w'.rows| == |w.rows|
    && forall q :: 0 <= q < |w'.rows| && w'.rows[q].status == Deleted ==>
         w.rows[q].status == Deleted || (q < |g.rows| && g.rows[q].status == Deleted)
  }

  /** A resume past its failure, or at its end, does nothing more. */
  predicate Halted(w: Worker) {
    w.kind == Resume && (w.pc == RowCatch || w.pc.BodyDone?)
  }

  /** No new command, unless the connection is up. */
  predicate SendsNothing(w: Worker, w': Worker) {
    w.stopped ==> w'.flight == w.flight || !w'.flight.Sent?
  }

  predicate OwnStep(s: State, t: Token, s': State) {
    && t < |s.workers| && t < |s'.workers|
    && var w, w' := s.workers[t], s'.workers[t];
    && w'.kind == w.kind && w'.stopped == w.stopped
    && (w'.idx == w.idx || MovesOn(w, s'.g, w'.idx))
    && LoadedFrom(w, s.g, w') && SendsNothing(w, w') && (Halted(w) ==> Halted(w') && w'.idx == w.idx)
  }

  lemma ActOwn(s: State, t: Token, pick: Cid) returns (s': State)
    requires t < |s.workers| && ShapeInv(s.job, s.workers[t]) && |s.g.rows| == |s.job.depths|
    ensures s' == Act(s, t, pick) && OwnStep(s, t, s')
  {
    var w := s.workers[t];
    if w.pc.Identify? {
      s' := IdentifyStep(s, t, pick);
      IdentifyOwn(s, t, pick);
    } else if LeasePc(w.pc) {
      s' := AssertLease(s, t, w.Go(LeaseNext(w.pc)));
    } else if UndoPc(w.pc) || w.pc.RowCatch? {
      s' := ActOnRow(s, t, pick);
      BackOwn(s, t, pick);
    } else if RowPc(w.pc) {
      s' := ActOnRow(s, t, pick);
      ForthOwn(s, t, pick);
    } else {
      s' := Act(s, t, pick);
      LoopOwn(s, t, pick);
    }
  }

  lemma IdentifyOwn(s: State, t: Token, pick: Cid)
    requires t < |s.workers| && ShapeInv(s.job, s.workers[t]) && s.workers[t].pc.Identify?
    ensures OwnStep(s, t, IdentifyStep(s, t, pick))
  {
    var w := s.workers[t];
    if w.pc.todo == {} {
      DecideOwn(s.job, w, w.pc.owned);
      assert IdentifyStep(s, t, pick) == s.Put(t, Decide(s.job, w, w.pc.owned));
    }
  }

  /** Only what it does next, or the id of its current row, changed. */
  predicate SamePlace(w: Worker, w': Worker) {
    && w'.kind == w.kind && w'.stopped == w.stopped && w'.idx == w.idx && w'.flight == w.flight
    && |w'.rows| == |w.rows| && forall q :: 0 <= q < |w.rows| ==> w'.rows[q].status == w.rows[q].status
  }

  lemma DecideOwn(job: Job, w: Worker, owned: seq<Cid>)
    requires 0 <= w.idx < |w.rows| && w.idx < |job.names|
    ensures SamePlace(w, Decide(job, w, owned))
  {
    if |owned| == 1 {
      FoundOwn(w, owned[0], Decide(job, w, owned).pc);
    }
  }

  lemma FoundOwn(w: Worker, c: Cid, pc: Pc)
    requires 0 <= w.idx < |w.rows|
    ensures SamePlace(w, w.Local(w.rows[w.idx].(cid := Some(c))).(pc := pc))
  {
  }

  lemma LoopOwn(s: State, t: Token, pick: Cid)
    requires t < |s.workers| && ShapeInv(s.job, s.workers[t]) && !RowPc(s.workers[t].pc) && |s.g.rows| == |s.job.depths|
    ensures OwnStep(s, t, Act(s, t, pick))
  {
    if s.workers[t].pc.RowStart? {
      StartOwn(s, t);
    } else {
      OutsideOwn(s, t, pick);
    }
  }

  lemma StartOwn(s: State, t: Token)
    requires t < |s.workers| && ShapeInv(s.job, s.workers[t]) && |s.g.rows| == |s.job.depths|
    requires s.workers[t].pc.RowStart?
    ensures s.workers[t].kind == Resume ==> OwnStep(s, t, ResumeRow(s, t))
    ensures s.workers[t].kind == Undo ==> OwnStep(s, t, UndoRow(s, t))
  {
    if s.workers[t].kind == Resume {
      ResumeStartOwn(s, t);
    }
  }

  lemma ResumeStartOwn(s: State, t: Token)
    requires t < |s.workers| && ShapeInv(s.job, s.workers[t]) && s.workers[t].kind == Resume
    requires s.workers[t].pc.RowStart?
    ensures OwnStep(s, t, ResumeRow(s, t))
  {
  }

  lemma OutsideOwn(s: State, t: Token, pick: Cid)
    requires t < |s.workers| && ShapeInv(s.job, s.workers[t]) && |s.g.rows| == |s.job.depths|
    requires s.workers[t].pc.Load? || s.workers[t].pc.ListChannels? || s.workers[t].pc.BodyDone?
    ensures OwnStep(s, t, Act(s, t, pick))
  {
  }

  lemma BackOwn(s: State, t: Token, pick: Cid)
    requires t < |s.workers| && ShapeInv(s.job, s.workers[t]) && |s.g.rows| == |s.job.depths|
    requires (UndoPc(s.workers[t].pc) && !LeasePc(s.workers[t].pc)) || s.workers[t].pc.RowCatch?
    ensures OwnStep(s, t, ActOnRow(s, t, pick))
  {
    var pc := s.workers[t].pc;
    if pc.RowCatch? {
      CatchOwn(s, t);
    } else if pc.MarkDeleted? {
      MarkOwn(s, t);
    } else {
      DeletingOwn(s, t, pick);
    }
  }

  lemma CatchOwn(s: State, t: Token)
    requires t < |s.workers| && AtRow(s.job, s.workers[t]) && |s.g.rows| == |s.job.depths| && s.workers[t].pc.RowCatch?
    ensures OwnStep(s, t, RowCatchStep(s, t))
  {
  }

  lemma MarkOwn(s: State, t: Token)
    requires t < |s.workers| && AtRow(s.job, s.workers[t]) && |s.g.rows| == |s.job.depths|
    requires s.workers[t].pc.MarkDeleted? && s.workers[t].kind == Undo
    ensures OwnStep(s, t, MarkDeletedStep(s, t))
  {
  }

  lemma DeletingOwn(s: State, t: Token, pick: Cid)
    requires t < |s.workers| && ShapeInv(s.job, s.workers[t]) && |s.g.rows| == |s.job.depths|
    requires s.workers[t].pc.WriteIntent? || s.workers[t].pc.SendDelete? || s.workers[t].pc.AwaitDelete?
    ensures OwnStep(s, t, ActOnRow(s, t, pick))
  {
  }

  lemma ForthOwn(s: State, t: Token, pick: Cid)
    requires t < |s.workers| && ShapeInv(s.job, s.workers[t]) && |s.g.rows| == |s.job.depths|
    requires ResumePc(s.workers[t].pc) && !LeasePc(s.workers[t].pc)
    ensures OwnStep(s, t, ActOnRow(s, t, pick))
  {
    var pc := s.workers[t].pc;
    if pc.WriteSaved? {
      SavedOwn(s, t);
    } else if pc.Latch? || pc.AwaitCreate? {
      LatchedOwn(s, t, pick);
    } else {
      OtherForthOwn(s, t, pick);
    }
  }

  lemma LatchedOwn(s: State, t: Token, pick: Cid)
    requires t < |s.workers| && ShapeInv(s.job, s.workers[t]) && |s.g.rows| == |s.job.depths|
    requires s.workers[t].pc.Latch? || s.workers[t].pc.AwaitCreate?
    ensures OwnStep(s, t, ActOnRow(s, t, pick))
  {
    if s.workers[t].pc.Latch? {
      AnnouncedOwn(s, t);
    } else {
      CreatedOwn(s, t);
    }
  }

  lemma AnnouncedOwn(s: State, t: Token)
    requires t < |s.workers| && AtRow(s.job, s.workers[t]) && |s.g.rows| == |s.job.depths| && s.workers[t].pc.Latch?
    ensures OwnStep(s, t, LatchStep(s, t))
  {
  }

  lemma CreatedOwn(s: State, t: Token)
    requires t < |s.workers| && AtRow(s.job, s.workers[t]) && s.workers[t].pc.AwaitCreate?
    ensures OwnStep(s, t, AwaitCreateStep(s, t))
  {
  }

  lemma OtherForthOwn(s: State, t: Token, pick: Cid)
    requires t < |s.workers| && ShapeInv(s.job, s.workers[t]) && |s.g.rows| == |s.job.depths|
    requires ResumePc(s.workers[t].pc) && !LeasePc(s.workers[t].pc)
    requires var pc := s.workers[t].pc; !pc.WriteSaved? && !pc.Latch? && !pc.AwaitCreate?
    ensures OwnStep(s, t, ActOnRow(s, t, pick))
  {
    var pc := s.workers[t].pc;
    if pc.SendCreate? || pc.SendEdit? || pc.AwaitEdit? {
      SentOwn(s, t, pick);
    } else if pc.SaveImage? {
      assert OwnStep(s, t, SaveImageStep(s, t));
    } else {
      WrittenOwn(s, t, pick);
    }
  }

  lemma WrittenOwn(s: State, t: Token, pick: Cid)
    requires t < |s.workers| && ShapeInv(s.job, s.workers[t]) && |s.g.rows| == |s.job.depths|
    requires s.workers[t].pc.WriteParent? || s.workers[t].pc.WriteCid?
    ensures OwnStep(s, t, ActOnRow(s, t, pick))
  {
  }

  lemma SentOwn(s: State, t: Token, pick: Cid)
    requires t < |s.workers| && ShapeInv(s.job, s.workers[t]) && |s.g.rows| == |s.job.depths|
    requires s.workers[t].pc.SendCreate? || s.workers[t].pc.SendEdit? || s.workers[t].pc.AwaitEdit?
    ensures OwnStep(s, t, ActOnRow(s, t, pick))
  {
  }

  lemma SavedOwn(s: State, t: Token)
    requires t < |s.workers| && ShapeInv(s.job, s.workers[t]) && |s.g.rows| == |s.job.depths|
    requires s.workers[t].pc.WriteSaved?
    ensures OwnStep(s, t, WriteSavedStep(s, t))
  {
  }

  // ------------------------------------------------------------ any event

  /** Anything but the worker's own steps leaves its place, its copies and its command alone. */
  predicate OthersStep(s: State, t: Token, e: Event, s': State) {
    && t < |s.workers| && t < |s'.workers|
    && var w, w' := s.workers[t], s'.workers[t];
    && w'.kind == w.kind && w'.idx == w.idx && w'.rows == w.rows
    && (w'.stopped <==>
          || w.stopped
          || (e == Fails(t) && (w.pc.AwaitCreate? || w.pc.AwaitEdit? || w.pc.AwaitDelete?))
          || (e == HitsDeadline(t) && w.outer == Inside && w.pc != Load))
    && (w'.flight == w.flight || !w'.flight.Sent?)
    && (Halted(w) ==> Halted(w'))
  }

  lemma OtherEvents(s: State, t: Token, e: Event)
    requires t < |s.workers| && !(e.Acts? && e.t == t)
    ensures OthersStep(s, t, e, Next(s, e))
  {
    if e.Acts? && e.t < |s.workers| {
      NextActs(s, e.t, e.pick);
      OthersAct(s, t, e.t, e.pick);
    } else if e.Delivers? && e.t < |s.workers| {
      NextDelivers(s, e.t, e.cid);
      OthersDeliver(s, t, e.t, e.cid);
    } else if e.Finishes? && e.t < |s.workers| {
      NextFinishes(s, e.t);
      OthersFinished(s, t, e.t);
    } else if e.Fails? && e.t < |s.workers| {
      assert Next(s, e) == Fail(s, e.t);
      OthersFail(s, t, e.t);
    }
  }

  lemma OthersAct(s: State, t: Token, u: Token, pick: Cid)
    requires t < |s.workers| && u < |s.workers| && t != u
    ensures t < |Act(s, u, pick).workers| && Act(s, u, pick).workers[t] == s.workers[t]
  {
    if AtRow(s.job, s.workers[u]) && RowPc(s.workers[u].pc) && |s.g.rows| == |s.job.depths| {
      OthersActOnRow(s, t, u, pick);
    }
  }

  lemma OthersActOnRow(s: State, t: Token, u: Token, pick: Cid)
    requires t < |s.workers| && u < |s.workers| && t != u && AtRow(s.job, s.workers[u]) && |s.g.rows| == |s.job.depths|
    requires RowPc(s.workers[u].pc)
    ensures t < |ActOnRow(s, u, pick).workers| && ActOnRow(s, u, pick).workers[t] == s.workers[t]
  {
    if s.workers[u].pc.Identify? {
      assert IdentifyStep(s, u, pick) == s.Put(u, IdentifyStep(s, u, pick).workers[u]);
    }
  }

  lemma OthersDeliver(s: State, t: Token, u: Token, c: Cid)
    requires t < |s.workers| && u < |s.workers|
    ensures OthersStep(s, t, Delivers(u, c), Deliver(s, u, c))
  {
    var flight := OnlyFlight(s, u, c);
  }

  lemma OthersFinished(s: State, t: Token, u: Token)
    requires t < |s.workers| && u < |s.workers|
    ensures OthersStep(s, t, Finishes(u), Finish(s, u))
  {
    OnlyOuter(s, u);
  }

  lemma OthersFail(s: State, t: Token, u: Token)
    requires t < |s.workers| && u < |s.workers|
    ensures OthersStep(s, t, Fails(u), Fail(s, u))
  {
  }

  lemma OwnEvent(s: State, t: Token, pick: Cid)
    requires Inv(s) && t < |s.workers|
    ensures OwnStep(s, t, Next(s, Acts(t, pick)))
  {
    NextActs(s, t, pick);
    assert WorkerInv(s.job, s.g, t, s.workers[t]);
    var s' := ActOwn(s, t, pick);
  }

  // ------------------------------------------------------------ a stopped connection

  /** A connection is stopped by a lost reply and by its deadline, and by nothing else; */
  lemma StopsIff(s: State, t: Token, e: Event)
    requires Inv(s) && t < |s.workers|
    ensures var s' := Next(s, e);
      t < |s'.workers|
      && (s'.workers[t].stopped <==>
            || s.workers[t].stopped
            || (e == Fails(t) && (|| s.workers[t].pc.AwaitCreate? || s.workers[t].pc.AwaitEdit?
                                  || s.workers[t].pc.AwaitDelete?))
            || (e == HitsDeadline(t) && s.workers[t].outer == Inside && s.workers[t].pc != Load))
  {
    if e.Acts? && e.t == t {
      OwnEvent(s, t, e.pick);
    } else {
      OtherEvents(s, t, e);
    }
  }

  /** from then on the worker sends nothing more: all that may still take effect is the command
      already on its way. */
  lemma {:induction false} StoppedSendsNothing(s: State, t: Token, events: seq<Event>)
    requires Inv(s) && t < |s.workers| && s.workers[t].stopped
    ensures var s' := Run(s, events);
      && t < |s'.workers| && s'.workers[t].stopped
      && (s'.workers[t].flight.Sent? ==> s'.workers[t].flight == s.workers[t].flight)
  {
    if events != [] {
      var before, e := events[..|events| - 1], events[|events| - 1];
      StoppedSendsNothing(s, t, before);
      RunInv(s, before);
      StopsIff(Run(s, before), t, e);
      if e.Acts? && e.t == t {
        OwnEvent(Run(s, before), t, e.pick);
      } else {
        OtherEvents(Run(s, before), t, e);
      }
    }
  }

  // ------------------------------------------------------------ a failed resume

  /** A resume stops at the first row that fails: whatever happens, it works on no other row. */
  lemma {:induction false} ResumeStops(s: State, t: Token, events: seq<Event>)
    requires Inv(s) && t < |s.workers| && s.workers[t].kind == Resume && s.workers[t].pc == RowCatch
    ensures var s' := Run(s, events);
      && t < |s'.workers| && s'.workers[t].idx == s.workers[t].idx
      && (s'.workers[t].pc == RowCatch || s'.workers[t].pc.BodyDone?)
  {
    HaltedStays(s, t, events);
  }

  lemma {:induction false} HaltedStays(s: State, t: Token, events: seq<Event>)
    requires Inv(s) && t < |s.workers| && Halted(s.workers[t])
    ensures var s' := Run(s, events);
      t < |s'.workers| && s'.workers[t].idx == s.workers[t].idx && Halted(s'.workers[t])
  {
    if events != [] {
      var before, e := events[..|events| - 1], events[|events| - 1];
      HaltedStays(s, t, before);
      RunInv(s, before);
      if e.Acts? && e.t == t {
        OwnEvent(Run(s, before), t, e.pick);
      } else {
        OtherEvents(Run(s, before), t, e);
      }
    }
  }

  /** The rows before the worker's are saved, those after it are as they were. */
  ghost predicate InOrder(before: Shared, s: State, t: Token) {
    && t < |s.workers| && s.workers[t].kind == Resume && |s.g.rows| == |before.rows|
    && (forall q :: 0 <= q < |s.g.rows| && q < s.workers[t].idx ==> s.g.rows[q].status == Saved)
    && (forall q :: 0 <= q < |s.g.rows| && q > s.workers[t].idx ==> s.g.rows[q] == before.rows[q])
  }

  /** An undisturbed resume takes the rows in order, each after the one before is saved, and
      touches none after the one it is at. */
  lemma {:induction false} ResumeInOrder(s: State, events: seq<Event>)
    requires Inv(s) && Started(s, Claim(s, Resume)) && AllCalm(events, |s.workers|)
    ensures InOrder(s.g, Run(Claim(s, Resume), events), |s.workers|)
  {
    AtWorkRun(s, Resume, events);
    if events != [] {
      var before, e := events[..|events| - 1], events[|events| - 1];
      ResumeInOrder(s, before);
      AtWorkRun(s, Resume, before);
      OrderStep(s.g, Run(Claim(s, Resume), before), |s.workers|, e);
    }
  }

  lemma OrderStep(before: Shared, s: State, t: Token, e: Event)
    requires Inv(s) && InOrder(before, s, t) && Calm(e, t)
    ensures InOrder(before, Next(s, e), t)
  {
    var s' := Next(s, e);
    assert |s'.g.rows| == |s.g.rows| by {
      NextInv(s, e);
      NextJob(s, e);
    }
    forall q | 0 <= q < |s.g.rows| && q != s.workers[t].idx ensures s'.g.rows[q] == s.g.rows[q] {
      RowsChangeSo(s, e, q);
    }
    if e.Acts? {
      OwnEvent(s, t, e.pick);
    } else {
      OtherEvents(s, t, e);
    }
  }

  // ------------------------------------------------------------ an undo goes through all rows

  predicate FailedAt(s: State, t: Token, p: int) {
    t < |s.workers| && s.workers[t].pc == RowCatch && s.workers[t].idx == p
  }

  /** Row `p` is deleted, or the worker failed at it. */
  ghost predicate DealtWith(s: State, t: Token, events: seq<Event>, p: nat) {
    var g := Run(s, events).g;
    p < |g.rows| && (g.rows[p].status == Deleted || exists k :: FailedAfter(s, t, events, k, p))
  }

  /** After `k` of the events the worker was failing at row `p`. */
  predicate FailedAfter(s: State, t: Token, events: seq<Event>, k: int, p: int) {
    0 <= k <= |events| && FailedAt(Run(s, events[..k]), t, p)
  }

  ghost predicate Passing(s: State, t: Token, events: seq<Event>) {
    var s' := Run(s, events);
    && t < |s'.workers| && s'.workers[t].kind == Undo
    && (forall q :: LoadedTrue(s'.g, s'.workers[t], q))
    && (forall p: nat :: p < |s'.g.rows| && p > s'.workers[t].idx ==> DealtWith(s, t, events, p))
  }

  predicate LoadedTrue(g: Shared, w: Worker, q: int) {
    0 <= q < |w.rows| && w.rows[q].status == Deleted ==> q < |g.rows| && g.rows[q].status == Deleted
  }

  /** An undo passes no row by: whatever happens meanwhile, every row after the worker's is deleted
      or the worker failed at it. */
  lemma {:induction false} UndoPasses(s: State, events: seq<Event>)
    requires Inv(s) && Started(s, Claim(s, Undo))
    ensures Inv(Run(Claim(s, Undo), events)) && Passing(Claim(s, Undo), |s.workers|, events)
  {
    ClaimInv(s, Undo);
    RunInv(Claim(s, Undo), events);
    if events != [] {
      UndoPasses(s, events[..|events| - 1]);
      PassingNext(Claim(s, Undo), |s.workers|, events);
    }
  }

  lemma PassingNext(s: State, t: Token, events: seq<Event>)
    requires events != [] && Passing(s, t, events[..|events| - 1]) && Inv(Run(s, events[..|events| - 1]))
    ensures Passing(s, t, events)
  {
    var before, e := events[..|events| - 1], events[|events| - 1];
    var s2, s3 := Run(s, before), Run(s, events);
    RowsStay(s2, e);
    WorkerMoves(s2, t, e);
    forall q ensures LoadedTrue(s3.g, s3.workers[t], q) {
      TrueStays(s2, t, e, q);
    }
    forall p: nat | p < |s3.g.rows| && p > s3.workers[t].idx ensures DealtWith(s, t, events, p) {
      if p > s2.workers[t].idx {
        DealtStill(s, t, events, p, s2, s3);
      } else {
        assert LoadedTrue(s2.g, s2.workers[t], p);
        JustPassed(s2, t, s3, p);
        NowDealtWith(s, t, events, p, s2, s3);
      }
    }
  }

  /** The table keeps its length, and deleted rows stay deleted. */
  lemma RowsStay(s: State, e: Event)
    requires Inv(s)
    ensures |Next(s, e).g.rows| == |s.g.rows|
    ensures forall p :: 0 <= p < |s.g.rows| && s.g.rows[p].status == Deleted ==> Next(s, e).g.rows[p].status == Deleted
  {
    NextInv(s, e);
    NextJob(s, e);
    forall p | 0 <= p < |s.g.rows| && s.g.rows[p].status == Deleted ensures Next(s, e).g.rows[p].status == Deleted {
      DeletedStays(s, e, p);
    }
  }

  predicate Moved(s: State, t: Token, s': State) {
    && t < |s.workers| && t < |s'.workers| && s'.workers[t].kind == s.workers[t].kind
    && (s'.workers[t].idx == s.workers[t].idx || MovesOn(s.workers[t], s'.g, s'.workers[t].idx))
    && LoadedFrom(s.workers[t], s.g, s'.workers[t])
  }

  lemma WorkerMoves(s: State, t: Token, e: Event)
    requires Inv(s) && t < |s.workers|
    ensures Moved(s, t, Next(s, e))
  {
    if e.Acts? && e.t == t {
      OwnEvent(s, t, e.pick);
    } else {
      OtherEvents(s, t, e);
    }
  }

  lemma TrueStays(s: State, t: Token, e: Event, q: int)
    requires Inv(s) && Moved(s, t, Next(s, e)) && LoadedTrue(s.g, s.workers[t], q)
    ensures LoadedTrue(Next(s, e).g, Next(s, e).workers[t], q)
  {
    RowsStay(s, e);
  }

  lemma JustPassed(s: State, t: Token, s': State, p: nat)
    requires Moved(s, t, s') && LoadedTrue(s.g, s.workers[t], p) && s.workers[t].kind == Undo
    requires p < |s.g.rows| == |s'.g.rows| && (s.g.rows[p].status == Deleted ==> s'.g.rows[p].status == Deleted)
    requires s'.workers[t].idx < p <= s.workers[t].idx
    ensures s'.g.rows[p].status == Deleted || FailedAt(s, t, p)
  {
  }

  /** The worker just moved on from row `p`. */
  lemma NowDealtWith(s: State, t: Token, events: seq<Event>, p: nat, s2: State, s3: State)
    requires events != [] && s2 == Run(s, events[..|events| - 1]) && s3 == Run(s, events) && p < |s3.g.rows|
    requires s3.g.rows[p].status == Deleted || FailedAt(s2, t, p)
    ensures DealtWith(s, t, events, p)
  {
    if FailedAt(s2, t, p) {
      FailedNow(s, t, events, p);
    }
  }

  lemma DealtStill(s: State, t: Token, events: seq<Event>, p: nat, s2: State, s3: State)
    requires events != [] && s2 == Run(s, events[..|events| - 1]) && s3 == Run(s, events)
    requires p < |s2.g.rows| == |s3.g.rows| && (s2.g.rows[p].status == Deleted ==> s3.g.rows[p].status == Deleted)
    requires DealtWith(s, t, events[..|events| - 1], p)
    ensures DealtWith(s, t, events, p)
  {
    var before := events[..|events| - 1];
    if k :| FailedAfter(s, t, before, k, p) {
      FailedStill(s, t, events, k, p);
    }
  }

  lemma FailedStill(s: State, t: Token, events: seq<Event>, k: int, p: nat)
    requires events != [] && FailedAfter(s, t, events[..|events| - 1], k, p)
    ensures FailedAfter(s, t, events, k, p)
  {
    assert events[..|events| - 1][..k] == events[..k];
  }

  lemma FailedNow(s: State, t: Token, events: seq<Event>, p: nat)
    requires events != [] && FailedAt(Run(s, events[..|events| - 1]), t, p)
    ensures FailedAfter(s, t, events, |events| - 1, p)
  {
  }

  /** The loop is not abandoned. */
  predicate LoopWhole(s: State, t: Token) {
    && t < |s.workers|
    && (s.workers[t].pc.BodyDone? ==> s.workers[t].pc.ok)
    && (s.workers[t].outer != Inside ==> s.workers[t].pc.BodyDone?)
  }

  lemma WholeStep(s: State, t: Token, e: Event)
    requires Inv(s) && LoopWhole(s, t) && ThereIn(s, t) && AtWork(s, t, Undo) && Calm(e, t)
    ensures LoopWhole(Next(s, e), t)
  {
    if e.Acts? {
      NextActs(s, t, e.pick);
      assert WorkerInv(s.job, s.g, t, s.workers[t]);
      WholeAct(s, t, e.pick);
    } else if e.Delivers? {
      NextDelivers(s, t, e.cid);
      DeliverKeepsPc(s, t, e.cid);
    } else if e.Finishes? {
      NextFinishes(s, t);
      FinishKeepsPc(s, t);
    }
  }

  lemma DeliverKeepsPc(s: State, t: Token, c: Cid)
    requires t < |s.workers|
    ensures var s' := Deliver(s, t, c);
      t < |s'.workers| && s'.workers[t].pc == s.workers[t].pc && s'.workers[t].outer == s.workers[t].outer
  {
  }

  lemma FinishKeepsPc(s: State, t: Token)
    requires LoopWhole(s, t)
    ensures LoopWhole(Finish(s, t), t)
  {
  }

  lemma WholeAct(s: State, t: Token, pick: Cid)
    requires LoopWhole(s, t) && ShapeInv(s.job, s.workers[t]) && |s.g.rows| == |s.job.depths|
    requires !s.workers[t].stopped && AtWork(s, t, Undo)
    ensures LoopWhole(Act(s, t, pick), t)
  {
    var w := s.workers[t];
    if w.pc.Identify? {
      if w.pc.todo == {} {
        DecideOnward(s.job, w, w.pc.owned);
      }
      assert Act(s, t, pick) == IdentifyStep(s, t, pick);
    } else if LeasePc(w.pc) {
      assert Act(s, t, pick) == AssertLease(s, t, w.Go(LeaseNext(w.pc)));
    } else if RowPc(w.pc) {
      WholeRow(s, t, pick);
    }
  }

  lemma WholeRow(s: State, t: Token, pick: Cid)
    requires LoopWhole(s, t) && ShapeInv(s.job, s.workers[t]) && |s.g.rows| == |s.job.depths|
    requires s.workers[t].kind == Undo && s.workers[t].outer == Inside && Held(s.g, t)
    requires RowPc(s.workers[t].pc) && !LeasePc(s.workers[t].pc) && !s.workers[t].pc.Identify?
    ensures LoopWhole(ActOnRow(s, t, pick), t)
  {
  }

  lemma {:induction false} WholeRun(s: State, events: seq<Event>)
    requires Inv(s) && Started(s, Claim(s, Undo)) && AllCalm(events, |s.workers|)
    ensures LoopWhole(Run(Claim(s, Undo), events), |s.workers|)
  {
    if events != [] {
      var before := events[..|events| - 1];
      WholeRun(s, before);
      ThereRun(s, Undo, before);
      AtWorkRun(s, Undo, before);
      WholeStep(Run(Claim(s, Undo), before), |s.workers|, events[|events| - 1]);
    }
  }

  /** An undisturbed undo goes through all rows, failures or not: when it is over, every row is
      deleted or was tried and failed. */
  lemma UndoTriesAll(s: State, events: seq<Event>, p: nat)
    requires Inv(s) && Started(s, Claim(s, Undo)) && AllCalm(events, |s.workers|) && p < |s.job.depths|
    requires EndsBy(Claim(s, Undo), |s.workers|, events)
    ensures DealtWith(Claim(s, Undo), |s.workers|, events, p)
  {
    UndoPasses(s, events);
    WholeRun(s, events);
    var s1, t := Claim(s, Undo), |s.workers|;
    var s' := Run(s1, events);
    RunJob(s1, events);
    assert WorkerInv(s'.job, s'.g, t, s'.workers[t]);
    assert s'.workers[t].idx == -1;
  }

  lemma {:induction false} RunJob(s: State, events: seq<Event>)
    ensures Run(s, events).job == s.job
  {
    if events != [] {
      RunJob(s, events[..|events| - 1]);
      NextJob(Run(s, events[..|events| - 1]), events[|events| - 1]);
    }
  }

  // ------------------------------------------------------------ the image of a row

  /** A row gets on to its final banner exactly if its image is still prepared, which is then stored
      for its channel, or one is stored already; else it fails and nothing is stored. */
  lemma ImageIff(s: State, t: Token, pick: Cid)
    requires t < |s.workers| && AtRow(s.job, s.workers[t]) && |s.g.rows| == |s.job.depths|
    requires s.workers[t].pc.SaveImage? && s.workers[t].rows[s.workers[t].idx].cid.Some?
    ensures var w, s' := s.workers[t], Act(s, t, pick);
      var image, c := w.rows[w.idx].image, w.rows[w.idx].cid.value;
      && (s'.workers[t] == w.(pc := EditLease) <==> image.Some? || c in s.g.images)
      && (s'.workers[t] == w.(pc := RowCatch) <==> image.None? && c !in s.g.images)
      && s'.g == s.g.(images := s'.g.images)
      && (forall d :: d in s'.g.images <==> d in s.g.images || (d == c && image.Some?))
      && (forall d :: d in s'.g.images ==>
            s'.g.images[d] == if d == c && image.Some? then image.value else s.g.images[d])
  {
  }

  /** After a failure a resume marks an announced creation without an id as uncertain and ends; an
      undo goes on with the row before; who lost the lease ends and writes nothing. */
  lemma CatchIs(s: State, t: Token, pick: Cid)
    requires t < |s.workers| && AtRow(s.job, s.workers[t]) && |s.g.rows| == |s.job.depths|
    requires s.workers[t].pc == RowCatch
    ensures var w, s' := s.workers[t], Act(s, t, pick);
      var row := w.rows[w.idx];
      && t < |s'.workers|
      && s'.workers[t] == (if Held(s.g, t) && w.kind == Undo then w.(failed := true, idx := w.idx - 1, pc := RowStart)
                           else w.(failed := true, pc := BodyDone(false)))
      && s'.g == s.g.(rows := s'.g.rows) && |s'.g.rows| == |s.g.rows|
      && (forall q :: 0 <= q < |s.g.rows| && q != w.idx ==> s'.g.rows[q] == s.g.rows[q])
      && s'.g.rows[w.idx] == (if Held(s.g, t) && w.kind == Resume && row.status == Creating && row.cid.None?
                              then s.g.rows[w.idx].(status := Uncertain) else s.g.rows[w.idx])
  {
  }

  // ------------------------------------------------------------ what a row starts from

  /** The listing is the server's: every channel, with what it shows. */
  lemma ListIs(s: State, t: Token, pick: Cid)
    requires t < |s.workers| && |s.workers[t].rows| == |s.g.rows| == |s.job.depths| && s.workers[t].pc.ListChannels?
    ensures var w, s' := s.workers[t], Act(s, t, pick);
      var w' := s'.workers[t];
      && s'.g == s.g
      && (w.stopped ==> w' == w.(pc := BodyDone(false)))
      && (!w.stopped ==> w' == w.(snap := w'.snap, listedAt := s.g.moves, pc := RowStart))
      && (!w.stopped ==>
            forall c :: (c in w'.snap <==> c in s.g.server) && (c in w'.snap ==> w'.snap[c] == s.g.server[c].look))
  {
  }

  /** A resume begins a row exactly if its level has a parent, which is none or is listed, and the
      lease is held; the parent is noted in the row. With no row left it has succeeded. */
  lemma ResumeStartIs(s: State, t: Token, pick: Cid)
    requires t < |s.workers| && ShapeInv(s.job, s.workers[t]) && |s.g.rows| == |s.job.depths|
    requires s.workers[t].pc.RowStart? && s.workers[t].kind == Resume
    ensures var w, s' := s.workers[t], Act(s, t, pick);
      var w' := s'.workers[t];
      && (w'.pc == WriteParent <==>
            && w.idx < |w.rows| && s.job.depths[w.idx] in w.parents && Held(s.g, t)
            && (w.parents[s.job.depths[w.idx]].Some? ==> w.parents[s.job.depths[w.idx]].value in w.snap))
      && (w'.pc == WriteParent ==>
            && w' == w.(pc := WriteParent,
                        rows := w.rows[w.idx := w.rows[w.idx].(parentCid := w.parents[s.job.depths[w.idx]])])
            && s'.g == s.g.(run := s.g.run.(leaseUntil := Some(s.g.now + 60000))))
      && (w'.pc != WriteParent ==> w' == w.(pc := BodyDone(w.idx == |w.rows|)) && s'.g == s.g)
  {
  }

  /** An undo skips a row it loaded as deleted; else, if the lease is held, it looks for the row's
      channels. With no row left it is through. */
  lemma UndoStartIs(s: State, t: Token, pick: Cid)
    requires t < |s.workers| && ShapeInv(s.job, s.workers[t]) && |s.g.rows| == |s.job.depths|
    requires s.workers[t].pc.RowStart? && s.workers[t].kind == Undo
    ensures var w, s' := s.workers[t], Act(s, t, pick);
      var w' := s'.workers[t];
      && (w.idx == -1 ==> w' == w.(pc := BodyDone(true)) && s'.g == s.g)
      && (w.idx >= 0 && w.rows[w.idx].status == Deleted ==> w' == w.(idx := w.idx - 1) && s'.g == s.g)
      && (w.idx >= 0 && w.rows[w.idx].status != Deleted && !Held(s.g, t) ==> w' == w.(pc := RowCatch) && s'.g == s.g)
      && (w.idx >= 0 && w.rows[w.idx].status != Deleted && Held(s.g, t) ==>
            && s'.g == s.g.(run := s.g.run.(leaseUntil := Some(s.g.now + 60000)))
            && w' == w.(pc := w'.pc) && w'.pc.Identify? && w'.pc.owned == []
            && forall d :: d in w'.pc.todo <==> LookedAt(w, d))
  {
  }

  /** An await that throws: without rows or listing the work is over; a resume between rows ends, an
      undo goes to the row's failure path, and so does every step within a row. */
  lemma FailIs(s: State, t: Token)
    requires t < |s.workers| && ShapeInv(s.job, s.workers[t])
    ensures var w, s' := s.workers[t], Fail(s, t);
      && s'.g == s.g && t < |s'.workers|
      && (w.pc.Load? ==> s'.workers[t] == w.(pc := BodyDone(false), outer := Releasing))
      && (w.pc.ListChannels? || w.pc.RowCatch? ==> s'.workers[t] == w.(pc := BodyDone(false), failed := true))
      && (w.pc.RowStart? && (w.kind == Resume || w.idx == -1) ==>
            s'.workers[t] == w.(pc := BodyDone(false), failed := true))
      && (w.pc.RowStart? && w.kind == Undo && w.idx >= 0 ==> s'.workers[t] == w.(pc := RowCatch))
      && (w.pc.BodyDone? ==> s' == s)
      && (RowPc(w.pc) && !w.pc.RowCatch? ==>
            s'.workers[t] == w.(pc := RowCatch,
                                stopped := w.stopped || w.pc.AwaitCreate? || w.pc.AwaitEdit? || w.pc.AwaitDelete?))
  {
  }
}
