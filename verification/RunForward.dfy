/** How an undisturbed resume works off one row, stage by stage: what the shared state and the
    worker are at every await, in terms of what they were when the row began. */
module RunForward {
  import opened Wrappers
  import opened TreeBuilders
  import opened RunMachine
  import opened RunInvariant
  import opened RunCommands
  import opened RunCalm

  lemma LikeRenewed(g: Shared, base: Shared)
    requires Like(g, base)
    ensures Like(Renew(g), base)
  {
  }

  function WithRow(g: Shared, p: int, row: Row): Shared
    requires 0 <= p < |g.rows|
  {
    g.(rows := g.rows[p := row])
  }

  function Sending(w: Worker, cmd: Cmd, waiting: Pc): Worker {
    w.(flight := Sent(cmd), pc := waiting)
  }

  function Answered(w: Worker, cmd: Cmd, c: Cid, waiting: Pc): Worker {
    w.(flight := Applied(cmd, c), pc := waiting)
  }

  // ------------------------------------------------------------ from a known channel to a saved row

  /** The images once the row's own is stored. */
  function Stored(images: map<Cid, Bytes>, c: Cid, image: Option<Bytes>): map<Cid, Bytes> {
    if image.Some? then images[c := image.value] else images
  }

  /** The channel shows its final banner. */
  function Edited(server: map<Cid, Channel>, c: Cid): map<Cid, Channel>
    requires c in server
  {
    server[c := server[c].(look := server[c].look.(banner := IdUrl(c)))]
  }

  function Recorded(g: Shared, p: int, c: Cid): Shared
    requires 0 <= p < |g.rows|
  {
    WithRow(g, p, g.rows[p].(cid := Some(c), status := Created))
  }

  function ImageStored(g: Shared, p: int, c: Cid, image: Option<Bytes>): Shared
    requires 0 <= p < |g.rows|
  {
    Recorded(g, p, c).(images := Stored(g.images, c, image))
  }

  function BannerSet(g: Shared, p: int, c: Cid, image: Option<Bytes>): Shared
    requires 0 <= p < |g.rows| && c in g.server
  {
    ImageStored(g, p, c, image).(server := Edited(g.server, c))
  }

  /** The shared state once row `p` is saved under channel `c`. */
  function SavedShared(g: Shared, p: int, c: Cid, image: Option<Bytes>): Shared
    requires 0 <= p < |g.rows| && c in g.server
  {
    g.(rows := g.rows[p := g.rows[p].(cid := Some(c), status := Saved, image := None)],
       images := Stored(g.images, c, image),
       server := Edited(g.server, c))
  }

  /** The worker `w` knows its row's channel `c`, and nothing stands in the way of saving it. */
  predicate CanKeep(job: Job, g: Shared, t: Token, w: Worker, c: Cid) {
    && Held(g, t) && AtRow(job, w) && |g.rows| == |job.depths| && c in g.server
    && w.kind == Resume && w.flight == NoFlight && !w.stopped
    && w.rows[w.idx].cid == Some(c) && (w.rows[w.idx].image.Some? || c in g.images)
  }

  /** Where a worker that became `b` over state `f` when it learned of `c` may be now. */
  predicate Keeping(job: Job, f: Shared, t: Token, b: Worker, c: Cid, g: Shared, w: Worker)
    requires CanKeep(job, f, t, b, c)
  {
    && w == b.(pc := w.pc, flight := w.flight) && RowPc(w.pc) && (w.flight.Sent? ==> w.pc.AwaitEdit?)
    && |g.rows| == |f.rows| && g.run.leaseToken == f.run.leaseToken && c in g.server
    && KeepStage(job, f, t, b, c, g, w)
  }

  predicate KeepStage(job: Job, f: Shared, t: Token, b: Worker, c: Cid, g: Shared, w: Worker)
    requires CanKeep(job, f, t, b, c)
  {
    var p, image := b.idx, b.rows[b.idx].image;
    match w.pc
    case CidLease => w == b.Go(CidLease) && Like(g, f)
    case WriteCid => w == b.Go(WriteCid) && Like(g, f)
    case ImageLease => w == b.Go(ImageLease) && Like(g, Recorded(f, p, c))
    case SaveImage => w == b.Go(SaveImage) && Like(g, Recorded(f, p, c))
    case EditLease => w == b.Go(EditLease) && Like(g, ImageStored(f, p, c, image))
    case SendEdit => w == b.Go(SendEdit) && Like(g, ImageStored(f, p, c, image))
    case AwaitEdit =>
      || (w == Sending(b, EditCmd(p, c), AwaitEdit) && Like(g, ImageStored(f, p, c, image)))
      || (w == Answered(b, EditCmd(p, c), c, AwaitEdit) && Like(g, BannerSet(f, p, c, image)))
    case WriteSaved => w == b.Go(WriteSaved) && Like(g, BannerSet(f, p, c, image))
    case _ => false
  }

  predicate Kept(job: Job, f: Shared, t: Token, b: Worker, c: Cid, s: State) {
    t < |s.workers| && CanKeep(job, f, t, b, c) && Keeping(job, f, t, b, c, s.g, s.workers[t])
  }

  /** What a step brings: the next stage, or the saved row. */
  predicate KeptOn(job: Job, f: Shared, t: Token, b: Worker, c: Cid, s: State) {
    && t < |s.workers| && CanKeep(job, f, t, b, c)
    && (|| Keeping(job, f, t, b, c, s.g, s.workers[t])
        || (s.workers[t] == SavedWorker(job, b) && Like(s.g, SavedShared(f, b.idx, c, b.rows[b.idx].image))))
  }

  lemma KeepLease(job: Job, f: Shared, t: Token, b: Worker, c: Cid, s: State)
    requires Kept(job, f, t, b, c, s) && LeasePc(s.workers[t].pc)
    ensures Kept(job, f, t, b, c, AssertLease(s, t, s.workers[t].Go(LeaseNext(s.workers[t].pc))))
  {
    var w := s.workers[t];
    var s' := AssertLease(s, t, w.Go(LeaseNext(w.pc)));
    LikeLease(job, f, t, b, c, s);
    assert s'.workers[t] == w.Go(LeaseNext(w.pc)) && s'.g == Renew(s.g);
    if w.pc.CidLease? {
      LikeRenewed(s.g, f);
    } else if w.pc.ImageLease? {
      LikeRenewed(s.g, Recorded(f, b.idx, c));
    } else {
      LikeRenewed(s.g, ImageStored(f, b.idx, c, b.rows[b.idx].image));
    }
  }

  /** A kept row's worker still holds the lease and its data. */
  lemma LikeLease(job: Job, f: Shared, t: Token, b: Worker, c: Cid, s: State)
    requires Kept(job, f, t, b, c, s)
    ensures var w := s.workers[t];
      && Held(s.g, t) && AtRow(job, w) && |s.g.rows| == |job.depths| && RowPc(w.pc)
      && w.idx == b.idx && w.rows == b.rows && w.kind == Resume && !w.stopped
      && (w.flight.Sent? ==> w.pc.AwaitEdit?) && c in s.g.server
  {
  }

  lemma KeepCid(job: Job, f: Shared, t: Token, b: Worker, c: Cid, s: State)
    requires Kept(job, f, t, b, c, s) && s.workers[t].pc.WriteCid? && s.job == job
    ensures Kept(job, f, t, b, c, WriteCidStep(s, t))
  {
  }

  lemma KeepImage(job: Job, f: Shared, t: Token, b: Worker, c: Cid, s: State)
    requires Kept(job, f, t, b, c, s) && s.workers[t].pc.SaveImage? && s.job == job
    ensures Kept(job, f, t, b, c, SaveImageStep(s, t))
  {
  }

  lemma KeepSend(job: Job, f: Shared, t: Token, b: Worker, c: Cid, s: State)
    requires Kept(job, f, t, b, c, s) && s.workers[t].pc.SendEdit? && s.job == job
    ensures Kept(job, f, t, b, c, SendStep(s, t, EditCmd(b.idx, c), AwaitEdit))
  {
  }

  lemma KeepAwait(job: Job, f: Shared, t: Token, b: Worker, c: Cid, s: State)
    requires Kept(job, f, t, b, c, s) && s.workers[t].pc.AwaitEdit? && s.job == job
    ensures Kept(job, f, t, b, c, AwaitEditStep(s, t))
  {
  }

  lemma KeepSaved(job: Job, f: Shared, t: Token, b: Worker, c: Cid, s: State)
    requires Kept(job, f, t, b, c, s) && s.workers[t].pc.WriteSaved? && s.job == job
    ensures KeptOn(job, f, t, b, c, WriteSavedStep(s, t))
  {
    var p := b.idx;
    var was := BannerSet(f, p, c, b.rows[p].image);
    assert was.rows[p := was.rows[p].(status := Saved, image := None)]
        == f.rows[p := f.rows[p].(cid := Some(c), status := Saved, image := None)];
    assert SavedWorker(job, b.Go(WriteSaved)) == SavedWorker(job, b);
  }

  lemma KeepActs(job: Job, f: Shared, t: Token, b: Worker, c: Cid, s: State, pick: Cid) returns (s': State)
    requires Kept(job, f, t, b, c, s) && s.job == job
    ensures s' == Act(s, t, pick) && KeptOn(job, f, t, b, c, s')
  {
    var w := s.workers[t];
    LikeLease(job, f, t, b, c, s);
    if LeasePc(w.pc) {
      s' := AssertLease(s, t, w.Go(LeaseNext(w.pc)));
      KeepLease(job, f, t, b, c, s);
    } else if w.pc.WriteCid? {
      s' := WriteCidStep(s, t);
      KeepCid(job, f, t, b, c, s);
    } else if w.pc.SaveImage? {
      s' := SaveImageStep(s, t);
      KeepImage(job, f, t, b, c, s);
    } else if w.pc.SendEdit? {
      s' := SendStep(s, t, EditCmd(b.idx, c), AwaitEdit);
      KeepSend(job, f, t, b, c, s);
    } else if w.pc.AwaitEdit? {
      s' := AwaitEditStep(s, t);
      KeepAwait(job, f, t, b, c, s);
    } else {
      s' := WriteSavedStep(s, t);
      KeepSaved(job, f, t, b, c, s);
    }
  }

  lemma KeepWaits(job: Job, f: Shared, t: Token, b: Worker, c: Cid, s: State, s': State)
    requires Kept(job, f, t, b, c, s) && Waits(s, s')
    ensures Kept(job, f, t, b, c, s')
  {
    var p, image, pc := b.idx, b.rows[b.idx].image, s.workers[t].pc;
    if pc.CidLease? || pc.WriteCid? {
      LikeBoth(s'.g, s.g, f);
    } else if pc.ImageLease? || pc.SaveImage? {
      LikeBoth(s'.g, s.g, Recorded(f, p, c));
    } else if pc.WriteSaved? || s.workers[t].flight.Applied? {
      LikeBoth(s'.g, s.g, BannerSet(f, p, c, image));
    } else {
      LikeBoth(s'.g, s.g, ImageStored(f, p, c, image));
    }
  }

  lemma KeepDelivers(job: Job, f: Shared, t: Token, b: Worker, c: Cid, s: State, d: Cid)
    requires Kept(job, f, t, b, c, s) && s.job == job
    ensures Kept(job, f, t, b, c, Deliver(s, t, d))
  {
    LikeLease(job, f, t, b, c, s);
    if s.workers[t].flight.Sent? {
      var s' := Deliver(s, t, d);
      assert s'.workers[t] == Answered(b, EditCmd(b.idx, c), c, AwaitEdit);
    } else {
      assert Deliver(s, t, d) == s;
    }
  }

  // ------------------------------------------------------------ from the start of a row to its channel

  /** The worker at its row, under the row's parent. */
  function Here(job: Job, w: Worker): Worker
    requires AtRow(job, w) && job.depths[w.idx] in w.parents
  {
    w.Local(w.rows[w.idx].(parentCid := w.parents[job.depths[w.idx]]))
  }

  function ParentStored(job: Job, g: Shared, w: Worker): Shared
    requires AtRow(job, w) && |g.rows| == |job.depths| && job.depths[w.idx] in w.parents
  {
    WithRow(g, w.idx, g.rows[w.idx].(parentCid := w.parents[job.depths[w.idx]]))
  }

  /** Inspecting channel `d` tells whether it is `own`, the row's channel. */
  predicate Inspect(job: Job, g: Shared, w: Worker, d: Cid, own: Option<Cid>)
    requires AtRow(job, w)
  {
    && d in g.server
    && (if g.server[d].marker == Some(w.idx) then own == Some(d) && Unchanged(job, w, d)
        else own != Some(d) && w.rows[w.idx].cid.None?)
  }

  predicate Unbegun(job: Job, w: Worker)
    requires AtRow(job, w)
  {
    && w.rows[w.idx].cid.None? && !OutcomeUnknown(w.rows[w.idx].status)
    && !NameTaken(w.snap, w.rows[w.idx].parentCid, job.names[w.idx])
  }

  /** Worker `b` starts a row over state `f`: `own` is the row's channel, if it has one. */
  predicate CanSeek(job: Job, f: Shared, t: Token, b: Worker, own: Option<Cid>) {
    && Held(f, t) && AtRow(job, b) && |f.rows| == |job.depths|
    && b.kind == Resume && b.pc == RowStart && b.flight == NoFlight && !b.stopped
    && job.depths[b.idx] in b.parents
    && (b.parents[job.depths[b.idx]].Some? ==> b.parents[job.depths[b.idx]].value in b.snap)
    && (own.Some? ==> own.value in Candidates(Here(job, b)))
    && (own.None? ==> Unbegun(job, Here(job, b)))
    && (forall d :: d in Candidates(Here(job, b)) ==> Inspect(job, f, Here(job, b), d, own))
  }

  predicate Seeking(job: Job, f: Shared, t: Token, b: Worker, own: Option<Cid>, g: Shared, w: Worker)
    requires CanSeek(job, f, t, b, own)
  {
    && w == Here(job, b).(pc := w.pc) && RowPc(w.pc)
    && |g.rows| == |f.rows| && g.run.leaseToken == f.run.leaseToken && g.server == f.server
    && SeekStage(job, f, t, b, own, g, w)
  }

  predicate SeekStage(job: Job, f: Shared, t: Token, b: Worker, own: Option<Cid>, g: Shared, w: Worker)
    requires CanSeek(job, f, t, b, own)
  {
    match w.pc
    case WriteParent => Like(g, f)
    case Identify(todo, owned) =>
      && Like(g, ParentStored(job, f, b))
      && todo <= Candidates(Here(job, b))
      && owned == if own.Some? && own.value !in todo then [own.value] else []
    case Latch => own.None? && Like(g, ParentStored(job, f, b))
    case _ => false
  }

  predicate Sought(job: Job, f: Shared, t: Token, b: Worker, own: Option<Cid>, s: State) {
    t < |s.workers| && CanSeek(job, f, t, b, own) && Seeking(job, f, t, b, own, s.g, s.workers[t])
  }

  /** The worker once the row's channel is known. */
  function FoundWorker(job: Job, b: Worker, c: Cid): Worker
    requires AtRow(job, b) && job.depths[b.idx] in b.parents
  {
    var w := Here(job, b);
    w.Local(w.rows[w.idx].(cid := Some(c)))
  }

  /** What a step brings: the next stage, the row's channel, or the announcement of a new one. */
  predicate SoughtOn(job: Job, f: Shared, t: Token, b: Worker, own: Option<Cid>, s: State) {
    && t < |s.workers| && CanSeek(job, f, t, b, own)
    && (|| Seeking(job, f, t, b, own, s.g, s.workers[t])
        || (own.Some? && s.workers[t] == FoundWorker(job, b, own.value).Go(CidLease)
            && Like(s.g, ParentStored(job, f, b)))
        || (own.None? && Making(job, f, t, b, 0, s.g, s.workers[t])))
  }

  lemma SeekBegins(job: Job, f: Shared, t: Token, own: Option<Cid>, s: State)
    requires t < |s.workers| && CanSeek(job, f, t, s.workers[t], own) && Like(s.g, f) && s.job == job
    ensures Sought(job, f, t, s.workers[t], own, ResumeRow(s, t))
  {
    LikeRenewed(s.g, f);
  }

  lemma SeekWaits(job: Job, f: Shared, t: Token, b: Worker, own: Option<Cid>, s: State, s': State)
    requires Sought(job, f, t, b, own, s) && Waits(s, s')
    ensures Sought(job, f, t, b, own, s')
  {
    if s.workers[t].pc.WriteParent? {
      LikeBoth(s'.g, s.g, f);
    } else {
      LikeBoth(s'.g, s.g, ParentStored(job, f, b));
    }
  }

  lemma SeekParent(job: Job, f: Shared, t: Token, b: Worker, own: Option<Cid>, s: State)
    requires Sought(job, f, t, b, own, s) && s.workers[t].pc.WriteParent? && s.job == job
    ensures Sought(job, f, t, b, own, WriteParentStep(s, t))
  {
    assert Candidates(s.workers[t]) == Candidates(Here(job, b));
  }

  lemma SeekInspect(job: Job, f: Shared, t: Token, b: Worker, own: Option<Cid>, s: State, pick: Cid)
    requires Sought(job, f, t, b, own, s) && s.workers[t].pc.Identify? && s.job == job
    requires s.workers[t].pc.todo != {}
    ensures Sought(job, f, t, b, own, IdentifyStep(s, t, pick))
  {
    var w := s.workers[t];
    if pick in w.pc.todo {
      assert Inspect(job, f, Here(job, b), pick, own);
    }
  }

  lemma SeekDecide(job: Job, f: Shared, t: Token, b: Worker, own: Option<Cid>, s: State, pick: Cid)
    requires Sought(job, f, t, b, own, s) && s.workers[t].pc.Identify? && s.job == job
    requires s.workers[t].pc.todo == {}
    ensures SoughtOn(job, f, t, b, own, IdentifyStep(s, t, pick))
  {
    if own.Some? {
      DecideFound(job, Here(job, b), s.workers[t].pc, own.value);
    } else {
      DecideNew(job, Here(job, b), s.workers[t].pc);
    }
  }

  lemma DecideFound(job: Job, w: Worker, pc: Pc, c: Cid)
    requires AtRow(job, w) && w.kind == Resume
    ensures Decide(job, w.Go(pc), [c]) == w.Local(w.rows[w.idx].(cid := Some(c))).Go(CidLease)
  {
  }

  lemma DecideNew(job: Job, w: Worker, pc: Pc)
    requires AtRow(job, w) && w.kind == Resume && Unbegun(job, w)
    ensures Decide(job, w.Go(pc), []) == w.Go(Latch)
  {
  }

  lemma SeekActs(job: Job, f: Shared, t: Token, b: Worker, own: Option<Cid>, s: State, pick: Cid) returns (s': State)
    requires Sought(job, f, t, b, own, s) && s.job == job
    ensures s' == Act(s, t, pick) && SoughtOn(job, f, t, b, own, s')
  {
    var w := s.workers[t];
    if w.pc.WriteParent? {
      s' := WriteParentStep(s, t);
      SeekParent(job, f, t, b, own, s);
    } else if w.pc.Identify? {
      s' := IdentifyStep(s, t, pick);
      if w.pc.todo == {} {
        SeekDecide(job, f, t, b, own, s, pick);
      } else {
        SeekInspect(job, f, t, b, own, s, pick);
      }
    } else {
      s' := LatchStep(s, t);
      MakeBegins(job, f, t, b, s);
    }
  }

  // ------------------------------------------------------------ a new channel

  /** Where a new row's channel goes. */
  function NewLink(job: Job, b: Worker): Link
    requires AtRow(job, b) && job.depths[b.idx] in b.parents
  {
    LinkFrom(b.parents[job.depths[b.idx]], b.siblings)
  }

  function Announcing(job: Job, b: Worker): Worker
    requires AtRow(job, b) && job.depths[b.idx] in b.parents
  {
    Here(job, b).Local(Here(job, b).rows[b.idx].(status := Creating))
  }

  function Announced(job: Job, f: Shared, t: Token, b: Worker): Shared
    requires AtRow(job, b) && |f.rows| == |job.depths| && job.depths[b.idx] in b.parents
  {
    var g := ParentStored(job, f, b);
    WithRow(g, b.idx, g.rows[b.idx].(status := Creating)).(latchedBy := f.latchedBy[b.idx := t])
  }

  function CreatedShared(job: Job, f: Shared, t: Token, b: Worker, c: Cid): Shared
    requires AtRow(job, b) && |f.rows| == |f.applied| == |job.depths| && job.depths[b.idx] in b.parents
  {
    ApplyCreate(job, Announced(job, f, t, b), b.idx, NewLink(job, b), c)
  }

  function CreatingWorker(job: Job, b: Worker, c: Cid): Worker
    requires AtRow(job, b) && job.depths[b.idx] in b.parents
  {
    WithCreated(job, Announcing(job, b), c)
  }

  predicate Making(job: Job, f: Shared, t: Token, b: Worker, c: Cid, g: Shared, w: Worker)
    requires CanSeek(job, f, t, b, None)
  {
    && w == Announcing(job, b).(pc := w.pc, flight := w.flight) && (w.flight.Sent? ==> w.pc.AwaitCreate?)
    && |g.rows| == |f.rows| && g.run.leaseToken == f.run.leaseToken
    && MakeStage(job, f, t, b, c, g, w)
  }

  predicate MakeStage(job: Job, f: Shared, t: Token, b: Worker, c: Cid, g: Shared, w: Worker)
    requires CanSeek(job, f, t, b, None)
  {
    match w.pc
    case CreateLease => w.flight == NoFlight && Like(g, Announced(job, f, t, b))
    case SendCreate => w.flight == NoFlight && Like(g, Announced(job, f, t, b))
    case AwaitCreate =>
      || (w.flight == Sent(CreateCmd(b.idx, NewLink(job, b))) && Like(g, Announced(job, f, t, b)))
      || (w.flight == Applied(CreateCmd(b.idx, NewLink(job, b)), c) && c !in f.used
          && |f.applied| == |job.depths| && Like(g, CreatedShared(job, f, t, b, c)))
    case _ => false
  }

  predicate Made(job: Job, f: Shared, t: Token, b: Worker, c: Cid, s: State) {
    t < |s.workers| && CanSeek(job, f, t, b, None) && Making(job, f, t, b, c, s.g, s.workers[t])
  }

  predicate MadeOn(job: Job, f: Shared, t: Token, b: Worker, c: Cid, s: State) {
    && t < |s.workers| && CanSeek(job, f, t, b, None)
    && (|| Making(job, f, t, b, c, s.g, s.workers[t])
        || (s.workers[t] == CreatingWorker(job, b, c) && c !in f.used && |f.applied| == |job.depths|
            && Like(s.g, CreatedShared(job, f, t, b, c))))
  }

  lemma MakeBegins(job: Job, f: Shared, t: Token, b: Worker, s: State)
    requires Sought(job, f, t, b, None, s) && s.workers[t].pc.Latch? && s.job == job
    ensures Made(job, f, t, b, 0, LatchStep(s, t))
  {
  }

  lemma MakeLease(job: Job, f: Shared, t: Token, b: Worker, c: Cid, s: State)
    requires Made(job, f, t, b, c, s) && s.workers[t].pc.CreateLease? && s.job == job
    ensures Made(job, f, t, b, c, AssertLease(s, t, s.workers[t].Go(SendCreate)))
  {
    LikeRenewed(s.g, Announced(job, f, t, b));
  }

  lemma MakeSend(job: Job, f: Shared, t: Token, b: Worker, c: Cid, s: State)
    requires Made(job, f, t, b, c, s) && s.workers[t].pc.SendCreate? && s.job == job
    ensures Made(job, f, t, b, c, SendStep(s, t, CreateFor(s.workers[t]), AwaitCreate))
  {
  }

  lemma MakeAwait(job: Job, f: Shared, t: Token, b: Worker, c: Cid, s: State)
    requires Made(job, f, t, b, c, s) && s.workers[t].pc.AwaitCreate? && s.job == job
    ensures MadeOn(job, f, t, b, c, AwaitCreateStep(s, t))
  {
  }

  lemma MakeActs(job: Job, f: Shared, t: Token, b: Worker, c: Cid, s: State, pick: Cid) returns (s': State)
    requires Made(job, f, t, b, c, s) && s.job == job
    ensures s' == Act(s, t, pick) && MadeOn(job, f, t, b, c, s')
  {
    var w := s.workers[t];
    if w.pc.CreateLease? {
      s' := AssertLease(s, t, w.Go(SendCreate));
      MakeLease(job, f, t, b, c, s);
    } else if w.pc.SendCreate? {
      s' := SendStep(s, t, CreateFor(w), AwaitCreate);
      MakeSend(job, f, t, b, c, s);
    } else {
      s' := AwaitCreateStep(s, t);
      MakeAwait(job, f, t, b, c, s);
    }
  }

  lemma MakeWaits(job: Job, f: Shared, t: Token, b: Worker, c: Cid, s: State, s': State)
    requires Made(job, f, t, b, c, s) && Waits(s, s')
    ensures Made(job, f, t, b, c, s')
  {
    if s.workers[t].flight.Applied? {
      LikeBoth(s'.g, s.g, CreatedShared(job, f, t, b, c));
    } else {
      LikeBoth(s'.g, s.g, Announced(job, f, t, b));
    }
  }

  /** The create takes effect under any unused id. */
  lemma MakeDelivers(job: Job, f: Shared, t: Token, b: Worker, c: Cid, s: State, d: Cid)
    requires Made(job, f, t, b, c, s) && s.job == job && |f.applied| == |job.depths|
    ensures Made(job, f, t, b, if s.workers[t].flight.Sent? then d else c, Deliver(s, t, d))
  {
    if !s.workers[t].flight.Sent? {
      assert Deliver(s, t, d) == s;
    }
  }
}
