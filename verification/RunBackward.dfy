/** Undisturbed work takes everything back: every undo that nobody disturbs deletes exactly the
    channels of the run, from the last row to the first, and generating and undoing leaves the
    server as it was. */
module RunBackward {
  import opened Wrappers
  import opened TreeBuilders
  import opened ForestPlan
  import opened RunMachine
  import opened RunInvariant
  import opened RunReachable
  import opened RunCalm
  import opened RunClaims
  import opened RunEnds
  import opened RunForward
  import opened RunRecovery
  import opened RunCompletion
  import opened RunErasing

  // ------------------------------------------------------------ what an undo needs

  /** Undo would recognise the channel of row `p`. */
  predicate Recognisable(job: Job, g: Shared, p: nat)
    requires p < |g.rows|
  {
    Intact(job, g, p) && g.rows[p].parentCid == g.born[p].link.parent
  }

  /** Row `p` can be taken back: it is deleted, its channel is gone or recognisable, or it was
      never begun. */
  predicate RowUndoable(job: Job, g: Shared, p: nat)
    requires p < |g.rows|
  {
    var row := g.rows[p];
    if row.status == Deleted then true
    else if row.cid.Some? then row.cid.value in g.server ==> Recognisable(job, g, p)
    else OutcomeUnknown(row.status) ==> Recognisable(job, g, p) && g.server[g.born[p].cid].look.banner == RowUrl(p)
  }

  ghost predicate Undoable(job: Job, g: Shared) {
    Tidy(g) && forall p :: 0 <= p < |g.rows| ==> RowUndoable(job, g, p)
  }

  /** Between two rows of an undo, rows above `p` are done. */
  ghost predicate GoingDown(job: Job, g: Shared, t: Token, w: Worker, p: int) {
    && Held(g, t) && |w.rows| == |g.rows| == |job.depths| == |job.names| == |job.images|
    && w.kind == Undo && w.outer == Inside && w.pc == RowStart && w.idx == p && -1 <= p < |w.rows|
    && !w.failed && !w.stopped && w.flight == NoFlight
    && w.snap == Looks(g.server) && Tidy(g)
    && (forall q :: 0 <= q <= p ==> w.rows[q] == g.rows[q] && RowUndoable(job, g, q))
    && (forall q :: p < q < |g.rows| ==> g.rows[q].status == Deleted)
  }

  /** The row's own channel, if it is there. */
  function OwnChannel(g: Shared, p: nat): Option<Cid> {
    if p in g.born && g.born[p].cid in g.server then Some(g.born[p].cid) else None
  }

  /** Inspection finds the row's own channel and nothing else. */
  lemma UndoFinds(job: Job, g: Shared, t: Token, w: Worker, p: nat)
    requires Sound(job, g, t, w) && GoingDown(job, g, t, w, p) && g.rows[p].status != Deleted
    ensures OwnChannel(g, p).Some? ==> OwnChannel(g, p).value in Candidates(w)
    ensures forall d :: d in Candidates(w) ==> Inspect(job, g, w, d, OwnChannel(g, p))
    ensures OwnChannel(g, p).None? ==> w.rows[p].cid.Some? || !OutcomeUnknown(w.rows[p].status)
  {
    assert RowUndoable(job, g, p) && RowInv(job, g, p);
    forall d | d in Candidates(w) ensures Inspect(job, g, w, d, OwnChannel(g, p)) {
      assert ChannelInv(g, d);
    }
  }

  /** By now it is a leaf. */
  lemma NoChildLeft(job: Job, g: Shared, t: Token, w: Worker, p: nat)
    requires Sound(job, g, t, w) && GoingDown(job, g, t, w, p) && OwnChannel(g, p).Some?
    ensures !HasChild(w.snap, OwnChannel(g, p).value)
  {
    var c := g.born[p].cid;
    forall d | d in w.snap ensures w.snap[d].pid != Some(c) {
      if w.snap[d].pid == Some(c) {
        assert BornCid(g, p, c) && Tended(g, d);
        var r :| BornCid(g, r, d);
        RowOfLive(job, g, t, w, p, r);
        ChildIsLater(job, g, p, r);
      }
    }
  }

  /** A row created under row `p`'s channel comes after it. */
  lemma ChildIsLater(job: Job, g: Shared, p: nat, r: nat)
    requires SharedInv(job, g) && p in g.born && r in g.born && r <= p
    ensures g.born[r].link.parent != Some(g.born[p].cid)
  {
    assert BornInv(job, g, r);
    var cids, parent := BornCids(g.born), ParentOf(job.depths, r);
    assert p in cids;
    if parent.Under? {
      assert parent.row in cids;
    }
  }

  /** A live channel of this run belongs to a row not undone yet and shows where it was created. */
  lemma RowOfLive(job: Job, g: Shared, t: Token, w: Worker, p: nat, r: int)
    requires Sound(job, g, t, w) && GoingDown(job, g, t, w, p) && r in g.born && g.born[r].cid in g.server
    ensures 0 <= r <= p && g.server[g.born[r].cid].look.pid == g.born[r].link.parent
  {
    assert BornInv(job, g, r) && RowInv(job, g, r);
    if r <= p {
      assert RowUndoable(job, g, r);
    }
  }

  /** So the row can be worked off. */
  lemma RowCanErase(job: Job, g: Shared, t: Token, w: Worker, p: nat)
    requires Sound(job, g, t, w) && GoingDown(job, g, t, w, p) && g.rows[p].status != Deleted
    ensures CanErase(job, g, t, w, OwnChannel(g, p))
  {
    UndoFinds(job, g, t, w, p);
    if OwnChannel(g, p).Some? {
      NoChildLeft(job, g, t, w, p);
    }
  }

  // ------------------------------------------------------------ from row to row

  /** Only channels of this run and their images disappear, nothing else happens. */
  ghost predicate Shrinks(g: Shared, g': Shared) {
    && g'.born == g.born && g'.used == g.used
    && (forall d :: d in g'.server ==> d in g.server && g'.server[d] == g.server[d])
    && (forall d :: d in g.server && d !in g'.server ==> Ours(g, d))
    && (forall d :: d in g'.images ==> d in g.images && g'.images[d] == g.images[d])
    && (forall d :: d in g.images && d !in g'.images ==> Ours(g, d))
  }

  lemma ShrinksBoth(a: Shared, b: Shared, c: Shared)
    requires Shrinks(a, b) && Shrinks(b, c)
    ensures Shrinks(a, c)
  {
    assert forall d :: Ours(a, d) <==> Ours(b, d) by {
      SameBornOurs(a, b);
    }
  }

  lemma ShrinksTidy(g: Shared, g': Shared)
    requires Shrinks(g, g') && Tidy(g)
    ensures Tidy(g')
  {
    SameBornOurs(g, g');
    forall d ensures Tended(g', d) {
      assert Tended(g, d);
    }
  }

  /** A row that was deleted already. */
  lemma SkipNext(job: Job, f: Shared, t: Token, b: Worker, g: Shared)
    requires GoingDown(job, f, t, b, b.idx) && 0 <= b.idx && f.rows[b.idx].status == Deleted && Like(g, f)
    ensures GoingDown(job, g, t, b.(idx := b.idx - 1), b.idx - 1) && Shrinks(f, g)
  {
    ShrinksTidy(f, g);
    forall q | 0 <= q <= b.idx - 1 ensures RowUndoable(job, g, q) {
      assert RowUndoable(job, f, q);
    }
  }

  lemma GoneNext(job: Job, f: Shared, t: Token, b: Worker, g: Shared)
    requires GoingDown(job, f, t, b, b.idx) && 0 <= b.idx && Like(g, AfterShared(f, b, None)) && SharedInv(job, f)
    ensures GoingDown(job, g, t, AfterWorker(b, None), b.idx - 1) && Shrinks(f, g)
  {
    assert RowInv(job, f, b.idx);
    assert f.rows[b.idx].cid.Some? ==> BornCid(f, b.idx, f.rows[b.idx].cid.value);
    ShrinksTidy(f, g);
    forall q | 0 <= q <= b.idx - 1 ensures AfterWorker(b, None).rows[q] == g.rows[q] && RowUndoable(job, g, q) {
      assert RowUndoable(job, f, q);
    }
  }

  lemma LiveNext(job: Job, f: Shared, t: Token, b: Worker, c: Cid, g: Shared)
    requires GoingDown(job, f, t, b, b.idx) && 0 <= b.idx && Like(g, AfterShared(f, b, Some(c)))
    requires OwnChannel(f, b.idx) == Some(c) && SharedInv(job, f)
    ensures GoingDown(job, g, t, AfterWorker(b, Some(c)), b.idx - 1) && Shrinks(f, g)
  {
    var p, w := b.idx, AfterWorker(b, Some(c));
    assert BornCid(f, p, c);
    ShrinksTidy(f, g);
    assert Looks(f.server) - {c} == Looks(f.server - {c});
    forall q | 0 <= q <= p - 1 ensures w.rows[q] == g.rows[q] && RowUndoable(job, g, q) {
      assert RowUndoable(job, f, q) && RowInv(job, f, q);
      assert p in BornCids(f.born) && (q in f.born ==> q in BornCids(f.born));
    }
  }

  // ------------------------------------------------------------ where an undisturbed undo may be

  /** If this undo had to take row `q` back, no image of its channel is left. */
  predicate Cleared(start: Shared, g: Shared, q: int) {
    0 <= q < |start.rows| && start.rows[q].status != Deleted && q in start.born ==> start.born[q].cid !in g.images
  }

  /** A row began in state `f` with worker `b`, and till then only channels of the run went. */
  ghost predicate DownBase(job: Job, start: Shared, t: Token, f: Shared, b: Worker) {
    && Sound(job, f, t, b) && GoingDown(job, f, t, b, b.idx) && Shrinks(start, f)
    && Below(start, f, b.idx)
  }

  /** The rows up to `p` are as they were, the images of the others' channels are gone. */
  ghost predicate Below(start: Shared, f: Shared, p: int) {
    && |f.rows| == |start.rows|
    && (forall q :: 0 <= q <= p && q < |f.rows| ==> f.rows[q] == start.rows[q])
    && (forall q :: p < q < |f.rows| ==> Cleared(start, f, q))
  }

  /** How far the worker got since. */
  datatype Phase = Before | Within | After

  datatype Descent = Entering | Down(f: Shared, b: Worker, phase: Phase)

  ghost predicate Matches(start: Shared, t: Token, v: Descent, s: State) {
    && t < |s.workers|
    && match v
       case Entering => InEntering(s.job, start, t, s.g, s.workers[t])
       case Down(f, b, phase) => DownBase(s.job, start, t, f, b) && PhaseHolds(s.job, f, t, b, phase, s)
  }

  predicate PhaseHolds(job: Job, f: Shared, t: Token, b: Worker, phase: Phase, s: State) {
    && t < |s.workers|
    && match phase
       case Before => Like(s.g, f) && s.workers[t] == b
       case Within => 0 <= b.idx && Erased(job, f, t, b, OwnChannel(f, b.idx), s)
       case After => b.idx == -1 && InLeaving(f, b, t, s.g, s.workers[t])
  }

  predicate InEntering(job: Job, start: Shared, t: Token, g: Shared, w: Worker) {
    && Held(start, t) && Like(g, start)
    && (w == NewWorker(job, Undo) || w == NewWorker(job, Undo).(rows := start.rows, pc := ListChannels))
  }

  predicate InLeaving(f: Shared, b: Worker, t: Token, g: Shared, w: Worker) {
    && w == b.(pc := BodyDone(true), outer := w.outer)
    && match w.outer
       case Inside => Like(g, f)
       case Closing(ok) => ok && Like(g, f)
       case Releasing => Like(g, f.(run := f.run.(status := Undone)))
       case Gone => g == f.(now := g.now, run := RunRow(Undone, None, None))
  }

  lemma EnterActs(start: Shared, t: Token, s: State, pick: Cid) returns (v: Descent, s': State)
    requires Inv(s) && Matches(start, t, Entering, s) && Undoable(s.job, start)
    ensures s' == Act(s, t, pick) && Matches(start, t, v, s')
  {
    s' := Act(s, t, pick);
    if s.workers[t].pc.Load? {
      v := Entering;
    } else {
      v := Down(s'.g, s'.workers[t], Before);
      ActInv(s, t, pick);
      InvSound(s', t);
      LastDown(s.job, start, t, s'.g, s'.workers[t]);
    }
  }

  /** The last row is ready. */
  lemma LastDown(job: Job, start: Shared, t: Token, g: Shared, w: Worker)
    requires Held(start, t) && job.Valid() && Undoable(job, start) && |g.rows| == |job.depths| && Like(g, start)
    requires w == NewWorker(job, Undo).(rows := g.rows, snap := Looks(g.server), listedAt := g.moves, pc := RowStart)
    ensures GoingDown(job, g, t, w, |job.depths| - 1) && Shrinks(start, g)
  {
    ShrinksTidy(start, g);
    forall p | 0 <= p < |g.rows| ensures RowUndoable(job, g, p) {
      assert RowUndoable(job, start, p);
    }
  }

  /** What the row's start says about its phases. */
  ghost predicate PhaseReady(job: Job, f: Shared, t: Token, b: Worker) {
    && |b.rows| == |f.rows| == |job.depths| && -1 <= b.idx < |b.rows|
    && b.pc == RowStart && b.kind == Undo && b.outer == Inside && !b.failed && !b.stopped && b.flight == NoFlight
    && Held(f, t)
    && (0 <= b.idx && b.rows[b.idx].status != Deleted ==> CanErase(job, f, t, b, OwnChannel(f, b.idx)))
  }

  lemma RowPhases(job: Job, f: Shared, t: Token, b: Worker)
    requires Sound(job, f, t, b) && GoingDown(job, f, t, b, b.idx)
    ensures PhaseReady(job, f, t, b)
  {
    if 0 <= b.idx && f.rows[b.idx].status != Deleted {
      RowCanErase(job, f, t, b, b.idx);
    }
  }

  /** The row is done, or was. */
  predicate RowOver(f: Shared, t: Token, b: Worker, s: State)
    requires 0 <= b.idx < |b.rows| == |f.rows|
  {
    && t < |s.workers|
    && (RowSkipped(f, b, s.g, s.workers[t]) || RowTaken(f, b, s.g, s.workers[t]))
  }

  predicate RowSkipped(f: Shared, b: Worker, g: Shared, w: Worker)
    requires 0 <= b.idx < |b.rows|
  {
    b.rows[b.idx].status == Deleted && w == b.(idx := b.idx - 1) && Like(g, f)
  }

  predicate RowTaken(f: Shared, b: Worker, g: Shared, w: Worker)
    requires 0 <= b.idx < |b.rows| == |f.rows|
  {
    && b.rows[b.idx].status != Deleted
    && w == AfterWorker(b, OwnChannel(f, b.idx)) && Like(g, AfterShared(f, b, OwnChannel(f, b.idx)))
  }

  lemma BeforeActs(job: Job, f: Shared, t: Token, b: Worker, s: State, pick: Cid) returns (phase: Phase, s': State)
    requires PhaseHolds(job, f, t, b, Before, s) && s.job == job && PhaseReady(job, f, t, b)
    ensures s' == Act(s, t, pick) && s'.job == job
    ensures PhaseHolds(job, f, t, b, phase, s') || (0 <= b.idx && RowOver(f, t, b, s'))
  {
    if b.idx == -1 {
      phase, s' := After, s.Put(t, b.Go(BodyDone(true)));
    } else if b.rows[b.idx].status == Deleted {
      phase, s' := Before, s.Put(t, b.(idx := b.idx - 1));
    } else {
      phase, s' := Within, UndoRow(s, t);
      EraseBegins(job, f, t, OwnChannel(f, b.idx), s);
    }
  }

  lemma WithinActs(job: Job, f: Shared, t: Token, b: Worker, s: State, pick: Cid) returns (s': State)
    requires PhaseHolds(job, f, t, b, Within, s) && s.job == job && b.idx < |b.rows| == |f.rows|
    ensures s' == Act(s, t, pick) && s'.job == job
    ensures PhaseHolds(job, f, t, b, Within, s') || RowOver(f, t, b, s')
  {
    s' := EraseActs(job, f, t, b, OwnChannel(f, b.idx), s, pick);
    ActJob(s, t, pick);
  }

  /** The image of the row's channel is gone. */
  lemma RowCleared(job: Job, start: Shared, t: Token, f: Shared, b: Worker, g: Shared)
    requires SharedInv(job, f) && GoingDown(job, f, t, b, b.idx) && 0 <= b.idx < |start.rows| && f.born == start.born
    requires f.rows[b.idx].status != Deleted && Like(g, AfterShared(f, b, OwnChannel(f, b.idx)))
    ensures Cleared(start, g, b.idx)
  {
    assert RowUndoable(job, f, b.idx) && RowInv(job, f, b.idx);
  }

  /** One more row is taken back. */
  lemma BelowNext(start: Shared, f: Shared, g: Shared, p: nat)
    requires Below(start, f, p) && Shrinks(f, g) && p < |f.rows| == |g.rows|
    requires forall q :: 0 <= q < p ==> g.rows[q] == f.rows[q]
    requires start.rows[p].status == Deleted || Cleared(start, g, p)
    ensures Below(start, g, p - 1)
  {
    forall q | p - 1 < q < |g.rows| ensures Cleared(start, g, q) {
      if q > p {
        assert Cleared(start, f, q);
      }
    }
  }

  /** The worker stands before the row above. */
  lemma RowGone(start: Shared, t: Token, f: Shared, b: Worker, s: State)
    requires DownBase(s.job, start, t, f, b) && 0 <= b.idx && RowOver(f, t, b, s)
    requires Sound(s.job, s.g, t, s.workers[t])
    ensures DownBase(s.job, start, t, s.g, s.workers[t])
  {
    NextBase(s.job, start, t, f, b, s.g, s.workers[t]);
  }

  lemma OverHeld(f: Shared, t: Token, b: Worker, s: State)
    requires 0 <= b.idx < |b.rows| == |f.rows| && RowOver(f, t, b, s) && Held(f, t)
    ensures Held(s.g, t)
  {
  }

  lemma ActSound(s: State, t: Token, pick: Cid) returns (s': State)
    requires Inv(s) && t < |s.workers| && Held(Act(s, t, pick).g, t)
    ensures s' == Act(s, t, pick) && t < |s'.workers| && Sound(s'.job, s'.g, t, s'.workers[t])
  {
    s' := Act(s, t, pick);
    ActInv(s, t, pick);
    InvSound(s', t);
  }

  lemma NextBase(job: Job, start: Shared, t: Token, f: Shared, b: Worker, g: Shared, w: Worker)
    requires DownBase(job, start, t, f, b) && 0 <= b.idx && Sound(job, g, t, w)
    requires RowSkipped(f, b, g, w) || RowTaken(f, b, g, w)
    ensures DownBase(job, start, t, g, w)
  {
    if RowSkipped(f, b, g, w) {
      SkipNext(job, f, t, b, g);
    } else {
      TakenNext(job, start, t, f, b, g);
    }
    ShrinksBoth(start, f, g);
    BelowNext(start, f, g, b.idx);
  }

  lemma TakenNext(job: Job, start: Shared, t: Token, f: Shared, b: Worker, g: Shared)
    requires SharedInv(job, f) && GoingDown(job, f, t, b, b.idx) && 0 <= b.idx < |start.rows| && f.born == start.born
    requires f.rows[b.idx].status != Deleted && Like(g, AfterShared(f, b, OwnChannel(f, b.idx)))
    ensures GoingDown(job, g, t, AfterWorker(b, OwnChannel(f, b.idx)), b.idx - 1) && Shrinks(f, g)
    ensures Cleared(start, g, b.idx)
  {
    RowCleared(job, start, t, f, b, g);
    match OwnChannel(f, b.idx) {
      case None => GoneNext(job, f, t, b, g);
      case Some(c) => LiveNext(job, f, t, b, c, g);
    }
  }

  lemma PhaseActs(start: Shared, t: Token, f: Shared, b: Worker, phase: Phase, s: State, pick: Cid)
    returns (v: Descent, s': State)
    requires Inv(s) && Matches(start, t, Down(f, b, phase), s)
    ensures s' == Act(s, t, pick) && Matches(start, t, v, s')
  {
    RowPhases(s.job, f, t, b);
    var phase' := phase;
    if phase == Before {
      phase', s' := BeforeActs(s.job, f, t, b, s, pick);
    } else if phase == Within {
      s' := WithinActs(s.job, f, t, b, s, pick);
    } else {
      s' := s;
    }
    if PhaseHolds(s.job, f, t, b, phase', s') {
      v := Down(f, b, phase');
    } else {
      OverHeld(f, t, b, s');
      s' := ActSound(s, t, pick);
      RowGone(start, t, f, b, s');
      v := Down(s'.g, s'.workers[t], Before);
    }
  }

  lemma PhaseDelivers(job: Job, f: Shared, t: Token, b: Worker, phase: Phase, s: State, d: Cid) returns (s': State)
    requires PhaseHolds(job, f, t, b, phase, s) && s.job == job && b.flight == NoFlight
    ensures s' == Deliver(s, t, d) && s'.job == job && PhaseHolds(job, f, t, b, phase, s')
  {
    if phase == Within {
      s' := Deliver(s, t, d);
      EraseDelivers(job, f, t, b, OwnChannel(f, b.idx), s, d);
      DeliverJob(s, t, d);
    } else {
      s' := s;
    }
  }

  lemma PhaseFinishes(job: Job, f: Shared, t: Token, b: Worker, phase: Phase, s: State) returns (s': State)
    requires PhaseHolds(job, f, t, b, phase, s) && s.job == job && Held(f, t)
    requires b.kind == Undo && !b.failed && !b.stopped && b.outer == Inside && b.pc == RowStart
    ensures s' == Finish(s, t) && s'.job == job && PhaseHolds(job, f, t, b, phase, s')
  {
    if phase == After {
      s' := Finish(s, t);
      LeaveFinishes(f, b, t, s);
    } else {
      s' := s;
    }
  }

  lemma LeaveFinishes(f: Shared, b: Worker, t: Token, s: State)
    requires t < |s.workers| && Held(f, t) && InLeaving(f, b, t, s.g, s.workers[t])
    requires b.kind == Undo && !b.failed && !b.stopped && b.outer == Inside
    ensures t < |Finish(s, t).workers| && Finish(s, t).job == s.job
    ensures InLeaving(f, b, t, Finish(s, t).g, Finish(s, t).workers[t])
  {
  }

  lemma PhaseWaits(job: Job, f: Shared, t: Token, b: Worker, phase: Phase, s: State, s': State)
    requires PhaseHolds(job, f, t, b, phase, s) && Waits(s, s') && (s.workers[t].outer == Gone ==> s'.g.run == s.g.run)
    ensures PhaseHolds(job, f, t, b, phase, s')
  {
    match phase {
      case Before => LikeBoth(s'.g, s.g, f);
      case Within => EraseWaits(job, f, t, b, OwnChannel(f, b.idx), s, s');
      case After => LeaveWaits(f, b, t, s.g, s.workers[t], s'.g);
    }
  }

  lemma LeaveWaits(f: Shared, b: Worker, t: Token, g: Shared, w: Worker, g': Shared)
    requires InLeaving(f, b, t, g, w) && Like(g', g) && (w.outer == Gone ==> g'.run == g.run)
    ensures InLeaving(f, b, t, g', w)
  {
  }

  lemma DescentActs(start: Shared, t: Token, v: Descent, s: State, pick: Cid) returns (v': Descent, s': State)
    requires Inv(s) && Matches(start, t, v, s) && Undoable(s.job, start)
    ensures s' == Act(s, t, pick) && Matches(start, t, v', s')
  {
    match v {
      case Entering => v', s' := EnterActs(start, t, s, pick);
      case Down(f, b, phase) => v', s' := PhaseActs(start, t, f, b, phase, s, pick);
    }
  }

  lemma DescentDelivers(start: Shared, t: Token, v: Descent, s: State, d: Cid) returns (s': State)
    requires Matches(start, t, v, s)
    ensures s' == Deliver(s, t, d) && Matches(start, t, v, s')
  {
    match v {
      case Entering => s' := s;
      case Down(f, b, phase) => s' := PhaseDelivers(s.job, f, t, b, phase, s, d);
    }
  }

  lemma DescentFinishes(start: Shared, t: Token, v: Descent, s: State) returns (s': State)
    requires Matches(start, t, v, s)
    ensures s' == Finish(s, t) && Matches(start, t, v, s')
  {
    match v {
      case Entering => s' := s;
      case Down(f, b, phase) => s' := PhaseFinishes(s.job, f, t, b, phase, s);
    }
  }

  lemma DescentWaits(start: Shared, t: Token, v: Descent, s: State, s': State)
    requires Matches(start, t, v, s) && Waits(s, s') && (s.workers[t].outer == Gone ==> s'.g.run == s.g.run)
    ensures Matches(start, t, v, s')
  {
    match v {
      case Entering => LikeBoth(s'.g, s.g, start);
      case Down(f, b, phase) => PhaseWaits(s.job, f, t, b, phase, s, s');
    }
  }

  lemma GoneStays(start: Shared, t: Token, v: Descent, s: State, e: Event)
    requires Matches(start, t, v, s) && s.workers[t].outer == Gone && (e.Ticks? || (e.Beats? && e.t == t))
    ensures Next(s, e).g.run == s.g.run
  {
  }

  lemma NextDescent(start: Shared, t: Token, v: Descent, s: State, e: Event) returns (v': Descent, s': State)
    requires Inv(s) && Matches(start, t, v, s) && Undoable(s.job, start) && Calm(e, t)
    ensures s' == Next(s, e) && Matches(start, t, v', s')
  {
    v' := v;
    if e.Acts? {
      NextActs(s, t, e.pick);
      v', s' := DescentActs(start, t, v, s, e.pick);
    } else if e.Delivers? {
      NextDelivers(s, t, e.cid);
      s' := DescentDelivers(start, t, v, s, e.cid);
    } else if e.Finishes? {
      NextFinishes(s, t);
      s' := DescentFinishes(start, t, v, s);
    } else {
      s' := WaitsNext(s, t, e);
      if s.workers[t].outer == Gone {
        GoneStays(start, t, v, s, e);
      }
      DescentWaits(start, t, v, s, s');
    }
  }

  // ------------------------------------------------------------ the whole undo

  /** Exactly the run's channels are gone, and with each that this undo took back its image. */
  ghost predicate TakenBack(before: Shared, s: State) {
    && s.g.run == RunRow(Undone, None, None)
    && (forall d :: d in s.g.server <==> d in before.server && !Ours(before, d))
    && (forall d :: d in s.g.server ==> s.g.server[d] == before.server[d])
    && (forall d :: d in s.g.images ==> d in before.images && s.g.images[d] == before.images[d])
    && (forall d :: d in before.images && d !in s.g.images ==> Ours(before, d))
    && (forall p :: 0 <= p < |before.rows| && before.rows[p].status != Deleted && p in before.born ==>
          before.born[p].cid !in s.g.images)
  }

  /** A delete on its way names a leaf, and every later row is deleted already. */
  predicate FromTheEnd(g: Shared, w: Worker) {
    w.flight.Sent? && w.flight.cmd.DeleteCmd? ==>
      && (forall d :: d in g.server ==> g.server[d].look.pid != Some(w.flight.cmd.cid))
      && (forall q :: w.flight.cmd.row < q < |g.rows| ==> g.rows[q].status == Deleted)
  }

  lemma UndoableLike(job: Job, g: Shared, g': Shared)
    requires Undoable(job, g) && g' == g.(now := g'.now, run := g'.run)
    ensures Undoable(job, g')
  {
    LikeSpares(g, g');
    forall p | 0 <= p < |g'.rows| ensures RowUndoable(job, g', p) {
      assert RowUndoable(job, g, p);
    }
  }

  lemma ClaimedEntering(s: State)
    requires Inv(s) && Started(s, Claim(s, Undo)) && Undoable(s.job, s.g)
    ensures var s1 := Claim(s, Undo);
      Inv(s1) && s1.job == s.job && Matches(s1.g, |s.workers|, Entering, s1) && Undoable(s.job, s1.g)
  {
    var s1 := Claim(s, Undo);
    ClaimInv(s, Undo);
    UndoableLike(s.job, s.g, s1.g);
  }

  lemma {:induction false} UndoView(s: State, events: seq<Event>) returns (v: Descent, s': State)
    requires Inv(s) && Started(s, Claim(s, Undo)) && Undoable(s.job, s.g) && AllCalm(events, |s.workers|)
    ensures s' == Run(Claim(s, Undo), events) && Inv(s') && s'.job == s.job
    ensures Matches(Claim(s, Undo).g, |s.workers|, v, s')
  {
    ClaimedEntering(s);
    if events == [] {
      v, s' := Entering, Claim(s, Undo);
    } else {
      var e := events[|events| - 1];
      var v1, s1 := UndoView(s, events[..|events| - 1]);
      v, s' := NextDescent(Claim(s, Undo).g, |s.workers|, v1, s1, e);
      NextInv(s1, e);
      NextJob(s1, e);
    }
  }

  lemma DescentUndeterred(start: Shared, t: Token, v: Descent, s: State)
    requires Matches(start, t, v, s)
    ensures Undeterred(s.workers[t]) && FromTheEnd(s.g, s.workers[t])
  {
    if v.Down? {
      if v.phase == Within {
        ErasingUndeterred(s.job, v.f, t, v.b, OwnChannel(v.f, v.b.idx), s);
      }
    }
  }

  lemma ErasingUndeterred(job: Job, f: Shared, t: Token, b: Worker, own: Option<Cid>, s: State)
    requires Erased(job, f, t, b, own, s) && !b.failed && b.snap == Looks(f.server)
    requires forall q :: b.idx < q < |f.rows| ==> f.rows[q].status == Deleted
    ensures Undeterred(s.workers[t]) && FromTheEnd(s.g, s.workers[t])
  {
    if s.workers[t].flight.Sent? {
      assert s.workers[t].flight == Sent(DeleteCmd(b.idx, own.value));
      assert Like(s.g, Intended(f, b.idx, own.value));
      LeafBefore(f, b, own.value, s.g);
    }
  }

  lemma LeafBefore(f: Shared, b: Worker, c: Cid, g: Shared)
    requires 0 <= b.idx < |f.rows| && Like(g, Intended(f, b.idx, c)) && c in f.server
    requires b.snap == Looks(f.server) && !HasChild(b.snap, c)
    requires forall q :: b.idx < q < |f.rows| ==> f.rows[q].status == Deleted
    ensures c in g.server
    ensures forall d :: d in g.server ==> g.server[d].look.pid != Some(c)
    ensures forall q :: b.idx < q < |g.rows| ==> g.rows[q].status == Deleted
  {
    forall d | d in g.server ensures g.server[d].look.pid != Some(c) {
      assert d in b.snap;
    }
  }

  lemma GoneUndone(before: Shared, start: Shared, t: Token, v: Descent, s: State)
    requires Inv(s) && Matches(start, t, v, s) && s.workers[t].outer == Gone && start == before.(run := start.run)
    ensures TakenBack(before, s)
  {
    LeftAt(start, t, v, s);
    LikeShrinks(before, start, v.f, s.g);
    OursGone(before, s);
    forall p | 0 <= p < |before.rows| && before.rows[p].status != Deleted && p in before.born
      ensures before.born[p].cid !in s.g.images
    {
      assert Cleared(start, v.f, p);
    }
  }

  /** The worker left after the first row. */
  lemma LeftAt(start: Shared, t: Token, v: Descent, s: State)
    requires Matches(start, t, v, s) && s.workers[t].outer == Gone
    ensures v.Down? && Shrinks(start, v.f) && Below(start, v.f, -1)
    ensures s.g == v.f.(now := s.g.now, run := RunRow(Undone, None, None))
  {
  }

  lemma LikeShrinks(before: Shared, start: Shared, f: Shared, g: Shared)
    requires start == before.(run := start.run) && Shrinks(start, f) && g == f.(now := g.now, run := g.run)
    ensures Shrinks(before, g)
  {
    SameBornOurs(before, start);
  }

  lemma OursGone(before: Shared, s: State)
    requires Inv(s) && s.g.run.status == Undone && Shrinks(before, s.g)
    ensures forall d :: d in s.g.server ==> !Ours(before, d)
  {
    forall d | Ours(before, d) ensures d !in s.g.server {
      var q :| BornCid(before, q, d);
      assert BornInv(s.job, s.g, q) && RowInv(s.job, s.g, q);
    }
  }

  /** Undo: from any state whatever the workers before did, if the run's channels are gone or
      recognisable and nobody put channels under them, every undisturbed undo goes through
      without a failure, so it never refuses a channel for its subchannels; it deletes leaves
      only, from the last row to the first; and when it is over, every channel of the run is
      gone and no other was touched. */
  lemma UndoCompletes(s: State, events: seq<Event>)
    requires Inv(s) && Started(s, Claim(s, Undo)) && Undoable(s.job, s.g) && AllCalm(events, |s.workers|)
    ensures var s', t := Run(Claim(s, Undo), events), |s.workers|;
      && t < |s'.workers| && Undeterred(s'.workers[t]) && FromTheEnd(s'.g, s'.workers[t])
      && (s'.workers[t].outer == Gone ==> TakenBack(s.g, s'))
  {
    var v, s' := UndoView(s, events);
    DescentUndeterred(Claim(s, Undo).g, |s.workers|, v, s');
    if s'.workers[|s.workers|].outer == Gone {
      GoneUndone(s.g, Claim(s, Undo).g, |s.workers|, v, s');
    }
  }

  // ------------------------------------------------------------ generate, then undo

  /** What makes a fresh run run through: a plan without gaps, distinct names, the parent there,
      and no channel of a row's name at the top of the plan yet. */
  ghost predicate Welcome(job: Job, g: Shared) {
    && Stepwise(job.depths) && |job.depths| == |job.names| && DistinctNames(job.names) && RootLive(job, g)
    && forall p, d :: 0 <= p < |job.names| && d in g.server && g.server[d].look.pid == job.root ==>
         g.server[d].look.name != job.names[p]
  }

  lemma InitReady(s: State)
    requires Init(s) && Welcome(s.job, s.g)
    ensures Ready(s.job, s.g) && Tidy(s.g) && Started(s, Claim(s, Resume))
  {
    forall p | 0 <= p < |s.g.rows| ensures RowReady(s.job, s.g, p) {
      forall d ensures NoClash(s.job, s.g, p, d) {
      }
    }
    forall d ensures Tended(s.g, d) {
    }
  }

  lemma CompletedUndoable(s: State)
    requires Inv(s) && s.g.run.status == Completed && Tidy(s.g)
    requires forall p :: 0 <= p < |s.g.rows| ==> BuiltRow(s.job, s.g, p)
    ensures Undoable(s.job, s.g)
  {
    forall p | 0 <= p < |s.g.rows| ensures RowUndoable(s.job, s.g, p) {
      assert BuiltRow(s.job, s.g, p) && RowInv(s.job, s.g, p);
    }
  }

  lemma FreshCompletes(s: State, forth: seq<Event>)
    requires Init(s) && Welcome(s.job, s.g) && KnownIds(s.g)
    requires AllCalm(forth, |s.workers|) && EndsBy(Claim(s, Resume), |s.workers|, forth)
    ensures var completed := Run(Claim(s, Resume), forth);
      && Inv(completed) && RunCompleted(s.g, completed)
      && Started(completed, Claim(completed, Undo)) && Undoable(completed.job, completed.g)
      && (forall p :: p in completed.g.born ==> 0 <= p < |completed.g.rows| && completed.g.rows[p].status != Deleted)
  {
    InitInv(s);
    InitReady(s);
    ResumeCompletes(s, forth);
    ClaimInv(s, Resume);
    RunInv(Claim(s, Resume), forth);
    CompletedUndoable(Run(Claim(s, Resume), forth));
    CompletedRows(Run(Claim(s, Resume), forth));
  }

  lemma CompletedRows(s: State)
    requires Inv(s) && s.g.run.status == Completed
    ensures forall p :: p in s.g.born ==> 0 <= p < |s.g.rows| && s.g.rows[p].status != Deleted
  {
    forall p | p in s.g.born ensures 0 <= p < |s.g.rows| && s.g.rows[p].status != Deleted {
      assert BornInv(s.job, s.g, p);
    }
  }

  /** Generating and undoing is the identity on the server and on the stored images: whenever an
      undisturbed resume of a fresh run and then an undisturbed undo are over, the run was completed
      in between, every channel is as it was before, and so is every image, as long as none was
      stored for an id the server had not given yet; and neither can be repeated. */
  lemma GenerateThenUndo(s: State, forth: seq<Event>, back: seq<Event>)
    requires Init(s) && Welcome(s.job, s.g) && KnownIds(s.g)
    requires AllCalm(forth, |s.workers|) && EndsBy(Claim(s, Resume), |s.workers|, forth)
    requires var completed := Run(Claim(s, Resume), forth);
      AllCalm(back, |completed.workers|) && EndsBy(Claim(completed, Undo), |completed.workers|, back)
    ensures var completed := Run(Claim(s, Resume), forth);
      var undone := Run(Claim(completed, Undo), back);
      && RunCompleted(s.g, completed)
      && undone.g.run.status == Undone && undone.g.server == s.g.server
      && (s.g.images.Keys <= s.g.used ==> undone.g.images == s.g.images)
      && Claim(undone, Undo) == undone && Claim(undone, Resume) == undone
  {
    FreshCompletes(s, forth);
    var completed := Run(Claim(s, Resume), forth);
    UndoCompletes(completed, back);
    var undone := Run(Claim(completed, Undo), back);
    ServerBack(s.g, completed.g, undone.g);
    if s.g.images.Keys <= s.g.used {
      ImagesBack(s.g, completed.g, undone);
    }
    assert !Claimable(undone.g, Undo) && !Claimable(undone.g, Resume);
  }

  /** And there are such schedules. */
  lemma BothEnd(s: State) returns (forth: seq<Event>, back: seq<Event>)
    requires Init(s) && Welcome(s.job, s.g) && KnownIds(s.g)
    ensures AllCalm(forth, |s.workers|) && EndsBy(Claim(s, Resume), |s.workers|, forth)
    ensures var completed := Run(Claim(s, Resume), forth);
      AllCalm(back, |completed.workers|) && EndsBy(Claim(completed, Undo), |completed.workers|, back)
  {
    InitInv(s);
    InitReady(s);
    forth := UndisturbedEnds(s, Resume, [], RankAfter(Claim(s, Resume), |s.workers|, []));
    FreshCompletes(s, forth);
    var completed := Run(Claim(s, Resume), forth);
    back := UndisturbedEnds(completed, Undo, [], RankAfter(Claim(completed, Undo), |completed.workers|, []));
  }

  lemma ServerBack(before: Shared, generated: Shared, undone: Shared)
    requires Spares(before, generated) && before.born == map[]
    requires forall d :: d in undone.server <==> d in generated.server && !Ours(generated, d)
    requires forall d :: d in undone.server ==> undone.server[d] == generated.server[d]
    ensures undone.server == before.server
  {
    forall d ensures d in undone.server <==> d in before.server {
      assert Untouched(before, generated, d);
    }
    forall d | d in before.server ensures undone.server[d] == before.server[d] {
      assert Untouched(before, generated, d);
    }
  }

  lemma ImagesBack(before: Shared, generated: Shared, undone: State)
    requires Spares(before, generated) && before.born == map[] && TakenBack(generated, undone)
    requires forall p :: p in generated.born ==> 0 <= p < |generated.rows| && generated.rows[p].status != Deleted
    requires before.images.Keys <= before.used
    ensures undone.g.images == before.images
  {
    forall d ensures d in undone.g.images <==> d in before.images {
      assert Untouched(before, generated, d);
      if q :| BornCid(generated, q, d) {
        assert d !in undone.g.images;
      }
    }
    forall d | d in before.images ensures undone.g.images[d] == before.images[d] {
      assert Untouched(before, generated, d);
    }
  }
}
