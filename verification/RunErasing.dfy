/** How an undisturbed undo works off one row, stage by stage, in terms of what the shared state
    and the worker were when the row began. */
module RunErasing {
  import opened Wrappers
  import opened TreeBuilders
  import opened RunMachine
  import opened RunInvariant
  import opened RunCommands
  import opened RunCalm
  import opened RunForward

  /** Worker `b` starts a row over state `f`: `own` is the row's channel, if it is there. */
  predicate CanErase(job: Job, f: Shared, t: Token, b: Worker, own: Option<Cid>) {
    && Held(f, t) && AtRow(job, b) && |f.rows| == |job.depths|
    && b.kind == Undo && b.pc == RowStart && b.flight == NoFlight && !b.stopped
    && b.rows[b.idx].status != Deleted
    && (match own
        case Some(c) => c in Candidates(b) && c in f.server && !HasChild(b.snap, c)
        case None => b.rows[b.idx].cid.Some? || !OutcomeUnknown(b.rows[b.idx].status))
    && (forall d :: d in Candidates(b) ==> Inspect(job, f, b, d, own))
  }

  /** The worker once it found the row's channel. */
  function Recalled(b: Worker, c: Cid): Worker
    requires 0 <= b.idx < |b.rows|
  {
    b.Local(b.rows[b.idx].(cid := Some(c)))
  }

  /** The shared state once the intent to delete is stored, */
  function Intended(f: Shared, p: int, c: Cid): Shared
    requires 0 <= p < |f.rows|
  {
    WithRow(f, p, f.rows[p].(cid := Some(c), status := Deleting))
  }

  /** and once the delete is applied. */
  function Removed(f: Shared, p: int, c: Cid): Shared
    requires 0 <= p < |f.rows|
  {
    Intended(f, p, c).(server := f.server - {c})
  }

  predicate Erasing(job: Job, f: Shared, t: Token, b: Worker, own: Option<Cid>, g: Shared, w: Worker)
    requires CanErase(job, f, t, b, own)
  {
    && w.kind == Undo && w.idx == b.idx && |w.rows| == |b.rows| && !w.stopped
    && w.outer == b.outer && w.failed == b.failed
    && RowPc(w.pc) && w.pc != RowCatch && (w.flight.Sent? ==> w.pc.AwaitDelete?)
    && |g.rows| == |f.rows| && g.run.leaseToken == f.run.leaseToken
    && EraseStage(job, f, t, b, own, g, w)
  }

  predicate EraseStage(job: Job, f: Shared, t: Token, b: Worker, own: Option<Cid>, g: Shared, w: Worker)
    requires CanErase(job, f, t, b, own)
  {
    match own
    case None => (
      match w.pc
      case Identify(todo, owned) => w == b.Go(w.pc) && Like(g, f) && todo <= Candidates(b) && owned == []
      case MarkDeleted => w == b.Go(MarkDeleted) && Like(g, f)
      case _ => false
    )
    case Some(c) => (
      match w.pc
      case Identify(todo, owned) =>
        && w == b.Go(w.pc) && Like(g, f) && todo <= Candidates(b)
        && owned == if c !in todo then [c] else []
      case IntentLease => w == Recalled(b, c).Go(IntentLease) && Like(g, f)
      case WriteIntent => w == Recalled(b, c).Go(WriteIntent) && Like(g, f)
      case DeleteLease => w == Recalled(b, c).Go(DeleteLease) && Like(g, Intended(f, b.idx, c))
      case SendDelete => w == Recalled(b, c).Go(SendDelete) && Like(g, Intended(f, b.idx, c))
      case AwaitDelete =>
        || (w == Sending(Recalled(b, c), DeleteCmd(b.idx, c), AwaitDelete) && Like(g, Intended(f, b.idx, c)))
        || (w == Answered(Recalled(b, c), DeleteCmd(b.idx, c), c, AwaitDelete) && Like(g, Removed(f, b.idx, c)))
      case MarkDeleted => w == Emptied(b, c) && Like(g, Removed(f, b.idx, c))
      case _ => false
    )
  }

  /** The worker once the channel is gone. */
  function Emptied(b: Worker, c: Cid): Worker
    requires 0 <= b.idx < |b.rows|
  {
    Recalled(b, c).(snap := b.snap - {c}, pc := MarkDeleted)
  }

  predicate Erased(job: Job, f: Shared, t: Token, b: Worker, own: Option<Cid>, s: State) {
    t < |s.workers| && CanErase(job, f, t, b, own) && Erasing(job, f, t, b, own, s.g, s.workers[t])
  }

  /** The shared state and the worker after the row. */
  function AfterShared(f: Shared, b: Worker, own: Option<Cid>): Shared
    requires 0 <= b.idx < |b.rows| == |f.rows|
  {
    match own
    case None => WithoutImage(f, b.idx, b.rows[b.idx].cid)
    case Some(c) => WithoutImage(Removed(f, b.idx, c), b.idx, Some(c))
  }

  function AfterWorker(b: Worker, own: Option<Cid>): Worker
    requires 0 <= b.idx < |b.rows|
  {
    match own
    case None => b.(idx := b.idx - 1, pc := RowStart)
    case Some(c) => Emptied(b, c).(idx := b.idx - 1, pc := RowStart)
  }

  /** What a step brings: the next stage, or the deleted row. */
  predicate ErasedOn(job: Job, f: Shared, t: Token, b: Worker, own: Option<Cid>, s: State) {
    && t < |s.workers| && CanErase(job, f, t, b, own)
    && (|| Erasing(job, f, t, b, own, s.g, s.workers[t])
        || (s.workers[t] == AfterWorker(b, own) && Like(s.g, AfterShared(f, b, own))))
  }

  lemma EraseBegins(job: Job, f: Shared, t: Token, own: Option<Cid>, s: State)
    requires t < |s.workers| && CanErase(job, f, t, s.workers[t], own) && Like(s.g, f) && s.job == job
    ensures Erased(job, f, t, s.workers[t], own, UndoRow(s, t))
  {
    LikeRenewed(s.g, f);
  }

  lemma EraseWaits(job: Job, f: Shared, t: Token, b: Worker, own: Option<Cid>, s: State, s': State)
    requires Erased(job, f, t, b, own, s) && Waits(s, s')
    ensures Erased(job, f, t, b, own, s')
  {
    LikeEither(s'.g, s.g, f);
    if own.Some? {
      LikeEither(s'.g, s.g, Intended(f, b.idx, own.value));
      LikeEither(s'.g, s.g, Removed(f, b.idx, own.value));
    }
  }

  lemma LikeEither(a: Shared, b: Shared, c: Shared)
    requires Like(a, b)
    ensures Like(b, c) ==> Like(a, c)
  {
  }

  lemma EraseInspect(job: Job, f: Shared, t: Token, b: Worker, own: Option<Cid>, s: State, pick: Cid)
    requires Erased(job, f, t, b, own, s) && s.workers[t].pc.Identify? && s.job == job && s.workers[t].pc.todo != {}
    ensures Erased(job, f, t, b, own, IdentifyStep(s, t, pick))
  {
    var w := s.workers[t];
    if pick in w.pc.todo {
      assert Inspect(job, f, b, pick, own);
    }
  }

  lemma EraseDecide(job: Job, f: Shared, t: Token, b: Worker, own: Option<Cid>, s: State, pick: Cid)
    requires Erased(job, f, t, b, own, s) && s.workers[t].pc.Identify? && s.job == job && s.workers[t].pc.todo == {}
    ensures Erased(job, f, t, b, own, IdentifyStep(s, t, pick))
  {
    if own.Some? {
      DecideLive(job, b, s.workers[t].pc, own.value);
    } else {
      DecideGone(job, b, s.workers[t].pc);
    }
  }

  lemma DecideLive(job: Job, w: Worker, pc: Pc, c: Cid)
    requires AtRow(job, w) && w.kind == Undo && !HasChild(w.snap, c)
    ensures Decide(job, w.Go(pc), [c]) == w.Local(w.rows[w.idx].(cid := Some(c))).Go(IntentLease)
  {
  }

  lemma DecideGone(job: Job, w: Worker, pc: Pc)
    requires AtRow(job, w) && w.kind == Undo
    requires w.rows[w.idx].cid.Some? || !OutcomeUnknown(w.rows[w.idx].status)
    ensures Decide(job, w.Go(pc), []) == w.Go(MarkDeleted)
  {
  }

  lemma EraseLease(job: Job, f: Shared, t: Token, b: Worker, own: Option<Cid>, s: State)
    requires Erased(job, f, t, b, own, s) && LeasePc(s.workers[t].pc) && s.job == job
    ensures Erased(job, f, t, b, own, AssertLease(s, t, s.workers[t].Go(LeaseNext(s.workers[t].pc))))
  {
    var w := s.workers[t];
    var s' := AssertLease(s, t, w.Go(LeaseNext(w.pc)));
    assert own.Some? && w == Recalled(b, own.value).Go(w.pc);
    assert s'.workers[t] == w.Go(LeaseNext(w.pc)) && s'.g == Renew(s.g);
    if w.pc.IntentLease? {
      LikeRenewed(s.g, f);
    } else {
      LikeRenewed(s.g, Intended(f, b.idx, own.value));
    }
  }

  lemma EraseIntent(job: Job, f: Shared, t: Token, b: Worker, own: Option<Cid>, s: State)
    requires Erased(job, f, t, b, own, s) && s.workers[t].pc.WriteIntent? && s.job == job
    ensures Erased(job, f, t, b, own, WriteIntentStep(s, t))
  {
  }

  lemma EraseSend(job: Job, f: Shared, t: Token, b: Worker, own: Option<Cid>, s: State)
    requires Erased(job, f, t, b, own, s) && s.workers[t].pc.SendDelete? && s.job == job
    ensures own.Some? && Erased(job, f, t, b, own, SendStep(s, t, DeleteCmd(b.idx, own.value), AwaitDelete))
  {
  }

  lemma EraseAwait(job: Job, f: Shared, t: Token, b: Worker, own: Option<Cid>, s: State)
    requires Erased(job, f, t, b, own, s) && s.workers[t].pc.AwaitDelete? && s.job == job
    ensures Erased(job, f, t, b, own, AwaitDeleteStep(s, t))
  {
  }

  lemma EraseMark(job: Job, f: Shared, t: Token, b: Worker, own: Option<Cid>, s: State)
    requires Erased(job, f, t, b, own, s) && s.workers[t].pc.MarkDeleted? && s.job == job
    ensures ErasedOn(job, f, t, b, own, MarkDeletedStep(s, t))
  {
  }

  lemma EraseActs(job: Job, f: Shared, t: Token, b: Worker, own: Option<Cid>, s: State, pick: Cid) returns (s': State)
    requires Erased(job, f, t, b, own, s) && s.job == job
    ensures s' == Act(s, t, pick) && ErasedOn(job, f, t, b, own, s')
  {
    var w := s.workers[t];
    if w.pc.Identify? {
      s' := IdentifyStep(s, t, pick);
      if w.pc.todo == {} {
        EraseDecide(job, f, t, b, own, s, pick);
      } else {
        EraseInspect(job, f, t, b, own, s, pick);
      }
    } else if LeasePc(w.pc) {
      s' := AssertLease(s, t, w.Go(LeaseNext(w.pc)));
      EraseLease(job, f, t, b, own, s);
    } else if w.pc.WriteIntent? {
      s' := WriteIntentStep(s, t);
      EraseIntent(job, f, t, b, own, s);
    } else {
      s' := EraseCommand(job, f, t, b, own, s, pick);
    }
  }

  lemma EraseCommand(job: Job, f: Shared, t: Token, b: Worker, own: Option<Cid>, s: State, pick: Cid)
    returns (s': State)
    requires Erased(job, f, t, b, own, s) && s.job == job
    requires var pc := s.workers[t].pc; pc.SendDelete? || pc.AwaitDelete? || pc.MarkDeleted?
    ensures s' == Act(s, t, pick) && ErasedOn(job, f, t, b, own, s')
  {
    var w := s.workers[t];
    if w.pc.SendDelete? {
      EraseSend(job, f, t, b, own, s);
      s' := SendStep(s, t, DeleteCmd(b.idx, own.value), AwaitDelete);
    } else if w.pc.AwaitDelete? {
      s' := AwaitDeleteStep(s, t);
      EraseAwait(job, f, t, b, own, s);
    } else {
      s' := MarkDeletedStep(s, t);
      EraseMark(job, f, t, b, own, s);
    }
  }

  lemma EraseDelivers(job: Job, f: Shared, t: Token, b: Worker, own: Option<Cid>, s: State, d: Cid)
    requires Erased(job, f, t, b, own, s) && s.job == job
    ensures Erased(job, f, t, b, own, Deliver(s, t, d))
  {
    if s.workers[t].flight.Sent? {
      var c := own.value;
      assert Deliver(s, t, d).workers[t] == Answered(Recalled(b, c), DeleteCmd(b.idx, c), c, AwaitDelete);
    } else {
      assert Deliver(s, t, d) == s;
    }
  }
}
