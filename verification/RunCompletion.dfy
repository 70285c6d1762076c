/** From the claim to the release: every undisturbed resume completes the run. */
module RunCompletion {
  import opened Wrappers
  import opened TreeBuilders
  import opened ForestPlan
  import opened RunMachine
  import opened RunInvariant
  import opened RunFrames
  import opened RunReachable
  import opened RunCalm
  import opened RunClaims
  import opened RunForward
  import opened RunRecovery

  // ------------------------------------------------------------ everything else on the server

  /** Channel `d` was created by this run. */
  ghost predicate Ours(g: Shared, d: Cid) {
    exists q :: BornCid(g, q, d)
  }

  /** Channel `d` and its image, unless the run made it in between, under an id never used before. */
  ghost predicate Untouched(g: Shared, g': Shared, d: Cid) {
    && (Ours(g, d) ==> Ours(g', d))
    && (Ours(g', d) && !Ours(g, d) ==> d !in g.used && d !in g.server)
    && (!Ours(g', d) ==>
          && (d in g'.server <==> d in g.server) && (d in g.server ==> g'.server[d] == g.server[d])
          && (d in g'.images <==> d in g.images) && (d in g.images ==> g'.images[d] == g.images[d]))
  }

  /** Channels of others and their images are as they were. */
  ghost predicate Spares(g: Shared, g': Shared) {
    g.used <= g'.used && forall d :: Untouched(g, g', d)
  }

  ghost predicate Tended(g: Shared, d: Cid) {
    d in g.server && g.server[d].look.pid.Some? && Ours(g, g.server[d].look.pid.value) ==> Ours(g, d)
  }

  /** Nobody else put a channel under one of this run's. */
  ghost predicate Tidy(g: Shared) {
    forall d :: Tended(g, d)
  }

  lemma GainedSpares(job: Job, g: Shared, p: nat, c: Cid, g': Shared)
    requires p < |g.rows| == |job.names| && Gained(job, g, p, c, g')
    ensures Spares(g, g') && (Tidy(g) ==> Tidy(g'))
  {
    assert BornCid(g', p, c);
    forall d ensures Untouched(g, g', d) {
      if q :| BornCid(g, q, d) {
        assert BornCid(g', q, d);
      }
      if q :| BornCid(g', q, d) {
        assert q != p ==> BornCid(g, q, d);
        assert p in g.born ==> BornCid(g, p, c);
      }
    }
    if Tidy(g) {
      forall d ensures Tended(g', d) {
        assert Tended(g, d) && Untouched(g, g', d);
        if d != c && d in g'.server && g'.server[d].look.pid.Some? && Ours(g', g'.server[d].look.pid.value) {
          var e := g'.server[d].look.pid.value;
          var q :| BornCid(g', q, e);
          assert q != p || p in g.born;
          assert BornCid(g, q, e);
        }
      }
    }
  }

  lemma SparesBoth(a: Shared, b: Shared, c: Shared)
    requires Spares(a, b) && Spares(b, c)
    ensures Spares(a, c)
  {
    forall d ensures Untouched(a, c, d) {
      assert Untouched(a, b, d) && Untouched(b, c, d);
    }
  }

  /** A creation's parent has an id the server has given. */
  lemma ParentUsed(job: Job, g: Shared, p: nat)
    requires SharedInv(job, g) && p in g.born && g.born[p].link.parent.Some?
    ensures g.born[p].link.parent.value in g.used
  {
    assert BornInv(job, g, p);
    var parent := ParentOf(job.depths, p);
    if parent.Under? {
      assert BornInv(job, g, parent.row) && parent.row in BornCids(g.born);
    }
  }

  lemma GainedKnown(job: Job, g: Shared, p: nat, c: Cid, g': Shared)
    requires p < |g.rows| == |job.names| && Gained(job, g, p, c, g') && KnownIds(g) && SharedInv(job, g')
    ensures KnownIds(g')
  {
    if g'.born[p].link.parent.Some? {
      ParentUsed(job, g', p);
    }
    forall d | d in g'.server ensures d in g'.used {
      assert ChannelInv(g', d);
    }
  }

  // ------------------------------------------------------------ where an undisturbed resume may be

  /** A row began in state `f` with worker `b`, and everything of others was spared till then. */
  ghost predicate Base(job: Job, start: Shared, t: Token, f: Shared, b: Worker) {
    && Sound(job, f, t, b) && Between(job, f, t, b, b.idx)
    && Spares(start, f) && (Tidy(start) ==> Tidy(f)) && KnownIds(f)
  }

  /** How far the worker got since. */
  datatype Stage = AtStart | InSearch | InCreate(cid: Cid) | InSave(cid: Cid) | AtEnd

  datatype View = Loading | Since(f: Shared, b: Worker, stage: Stage)

  ghost predicate Fits(start: Shared, t: Token, v: View, s: State) {
    && t < |s.workers|
    && match v
       case Loading => InLoading(s.job, start, t, s.g, s.workers[t])
       case Since(f, b, stage) => Base(s.job, start, t, f, b) && StageOk(s.job, f, t, b, stage, s)
  }

  predicate StageOk(job: Job, f: Shared, t: Token, b: Worker, stage: Stage, s: State) {
    && t < |s.workers|
    && match stage
       case AtStart => Like(s.g, f) && s.workers[t] == b
       case InSearch => InRow(job, f, b) && Sought(job, f, t, b, OwnOf(f, b.idx), s)
       case InCreate(c) => InRow(job, f, b) && !Begun(f, b.idx) && Made(job, f, t, b, c, s)
       case InSave(c) => InRow(job, f, b) && SaveOk(job, f, t, b, c, s)
       case AtEnd => b.idx == |b.rows| && InEnding(f, b, t, s.g, s.workers[t])
  }

  predicate InRow(job: Job, f: Shared, b: Worker) {
    AtRow(job, b) && |f.rows| == |f.applied| == |job.depths| && job.depths[b.idx] in b.parents
  }

  predicate SaveOk(job: Job, f: Shared, t: Token, b: Worker, c: Cid, s: State)
    requires InRow(job, f, b)
  {
    && (if Begun(f, b.idx) then OwnOf(f, b.idx) == Some(c) else c !in f.used)
    && Kept(job, KeepShared(job, f, t, b, c), t, KeepWorker(job, f, b, c), c, s)
  }

  predicate InLoading(job: Job, start: Shared, t: Token, g: Shared, w: Worker) {
    && Held(start, t) && Like(g, start)
    && (w == NewWorker(job, Resume) || w == NewWorker(job, Resume).(rows := start.rows, pc := ListChannels))
  }

  /** When the row's channel is known. */
  function KeepShared(job: Job, f: Shared, t: Token, b: Worker, c: Cid): Shared
    requires InRow(job, f, b)
  {
    if Begun(f, b.idx) then ParentStored(job, f, b) else CreatedShared(job, f, t, b, c)
  }

  function KeepWorker(job: Job, f: Shared, b: Worker, c: Cid): Worker
    requires InRow(job, f, b)
  {
    if Begun(f, b.idx) then FoundWorker(job, b, c).Go(CidLease) else CreatingWorker(job, b, c)
  }

  predicate InEnding(f: Shared, b: Worker, t: Token, g: Shared, w: Worker) {
    && w == b.(pc := BodyDone(true), outer := w.outer)
    && match w.outer
       case Inside => Like(g, f)
       case Closing(ok) => ok && Like(g, f)
       case Releasing => Like(g, f.(run := f.run.(status := Completed)))
       case Gone => g == f.(now := g.now, run := RunRow(Completed, None, None))
  }

  // ------------------------------------------------------------ every calm step keeps to it

  lemma InvSound(s: State, t: Token)
    requires Inv(s) && t < |s.workers| && Held(s.g, t)
    ensures Sound(s.job, s.g, t, s.workers[t])
  {
    HolderOf(s, t);
  }

  /** Time passes or the worker beats. */
  lemma StageWaits(job: Job, f: Shared, t: Token, b: Worker, stage: Stage, s: State, s': State)
    requires StageOk(job, f, t, b, stage, s) && Waits(s, s') && (s.workers[t].outer == Gone ==> s'.g.run == s.g.run)
    ensures StageOk(job, f, t, b, stage, s')
  {
    match stage {
      case AtStart => LikeBoth(s'.g, s.g, f);
      case InSearch => SeekWaits(job, f, t, b, OwnOf(f, b.idx), s, s');
      case InCreate(c) => MakeWaits(job, f, t, b, c, s, s');
      case InSave(c) => KeepWaits(job, KeepShared(job, f, t, b, c), t, KeepWorker(job, f, b, c), c, s, s');
      case AtEnd => EndWaits(f, b, t, s.g, s.workers[t], s'.g);
    }
  }

  lemma EndWaits(f: Shared, b: Worker, t: Token, g: Shared, w: Worker, g': Shared)
    requires InEnding(f, b, t, g, w) && Like(g', g) && (w.outer == Gone ==> g'.run == g.run)
    ensures InEnding(f, b, t, g', w)
  {
  }

  lemma LoadActs(start: Shared, t: Token, s: State, pick: Cid) returns (v: View, s': State)
    requires Inv(s) && Fits(start, t, Loading, s) && Ready(s.job, start) && KnownIds(start)
    ensures s' == Act(s, t, pick) && Fits(start, t, v, s')
  {
    s' := Act(s, t, pick);
    if s.workers[t].pc.Load? {
      v := Loading;
    } else {
      v := Since(s'.g, s'.workers[t], AtStart);
      ActInv(s, t, pick);
      InvSound(s', t);
      FirstBetween(s.job, start, t, s'.g, s'.workers[t]);
      LikeSpares(start, s'.g);
    }
  }

  /** The first row is ready. */
  lemma FirstBetween(job: Job, start: Shared, t: Token, g: Shared, w: Worker)
    requires Held(start, t) && job.Valid() && Ready(job, start) && Like(g, start)
    requires w == NewWorker(job, Resume).(rows := g.rows, snap := Looks(g.server), listedAt := g.moves, pc := RowStart)
    ensures Between(job, g, t, w, 0)
  {
    LikeReady(job, start, g);
    forall d ensures Shown(g, w, 0, d) {
    }
  }

  /** Neither the lease nor the status nor the clock matters for a row. */
  lemma LikeReady(job: Job, g: Shared, g': Shared)
    requires Ready(job, g) && g' == g.(now := g'.now, run := g'.run)
    ensures Ready(job, g')
  {
    forall p | 0 <= p < |g'.rows| ensures RowReady(job, g', p) {
      assert RowReady(job, g, p);
      if !Latched(g.rows[p]) {
        forall d ensures NoClash(job, g', p, d) {
          assert NoClash(job, g, p, d);
        }
      }
    }
  }

  lemma SameBornOurs(g: Shared, g': Shared)
    requires g'.born == g.born
    ensures forall d :: Ours(g, d) <==> Ours(g', d)
  {
    forall d ensures Ours(g, d) <==> Ours(g', d) {
      if q :| BornCid(g, q, d) {
        assert BornCid(g', q, d);
      }
      if q :| BornCid(g', q, d) {
        assert BornCid(g, q, d);
      }
    }
  }

  lemma LikeSpares(g: Shared, g': Shared)
    requires g' == g.(now := g'.now, run := g'.run)
    ensures Spares(g, g') && (Tidy(g) ==> Tidy(g')) && (KnownIds(g) ==> KnownIds(g'))
  {
    SameBornOurs(g, g');
    forall d ensures Untouched(g, g', d) {
    }
    forall d ensures Tended(g, d) ==> Tended(g', d) {
    }
  }

  /** What the row's start says about its stages. */
  ghost predicate StageReady(job: Job, f: Shared, t: Token, b: Worker) {
    b.idx < |b.rows| ==>
      && InRow(job, f, b) && CanSeek(job, f, t, b, OwnOf(f, b.idx))
      && (Begun(f, b.idx) <==> OwnOf(f, b.idx).Some?)
      && forall c :: Keepable(job, f, t, b, c)
  }

  predicate Keepable(job: Job, f: Shared, t: Token, b: Worker, c: Cid) {
    InRow(job, f, b) && (if Begun(f, b.idx) then OwnOf(f, b.idx) == Some(c) else c !in f.used) ==>
      CanKeep(job, KeepShared(job, f, t, b, c), t, KeepWorker(job, f, b, c), c)
  }

  lemma RowStages(job: Job, f: Shared, t: Token, b: Worker)
    requires Sound(job, f, t, b) && Between(job, f, t, b, b.idx)
    ensures StageReady(job, f, t, b)
  {
    var p := b.idx;
    if p < |b.rows| {
      RowCanSeek(job, f, t, b, p);
      if Begun(f, p) {
        FoundAgain(job, f, t, b, p);
      }
      forall c ensures Keepable(job, f, t, b, c) {
        if Begun(f, p) {
          FoundCanKeep(job, f, t, b, p);
        } else {
          NewCanKeep(job, f, t, b, p, c);
        }
      }
    }
  }

  lemma StartActs(job: Job, f: Shared, t: Token, b: Worker, s: State, pick: Cid) returns (stage: Stage, s': State)
    requires StageOk(job, f, t, b, AtStart, s) && s.job == job && StageReady(job, f, t, b)
    requires |s.g.rows| == |b.rows| == |job.depths| && 0 <= b.idx <= |b.rows| && b.pc == RowStart && b.kind == Resume
    requires b.outer == Inside
    ensures s' == Act(s, t, pick) && s'.job == job && StageOk(job, f, t, b, stage, s')
  {
    if b.idx < |b.rows| {
      stage, s' := InSearch, ResumeRow(s, t);
      SeekBegins(job, f, t, OwnOf(f, b.idx), s);
    } else {
      stage, s' := AtEnd, s.Put(t, b.Go(BodyDone(true)));
    }
  }

  lemma SeekOn(job: Job, f: Shared, t: Token, b: Worker, s: State, pick: Cid) returns (stage: Stage, s': State)
    requires StageOk(job, f, t, b, InSearch, s) && s.job == job && StageReady(job, f, t, b)
    ensures s' == Act(s, t, pick) && s'.job == job && StageOk(job, f, t, b, stage, s')
  {
    var own := OwnOf(f, b.idx);
    s' := SeekActs(job, f, t, b, own, s, pick);
    ActJob(s, t, pick);
    if Seeking(job, f, t, b, own, s'.g, s'.workers[t]) {
      stage := InSearch;
    } else if own.Some? {
      stage := InSave(own.value);
      assert Keepable(job, f, t, b, own.value);
    } else {
      stage := InCreate(0);
    }
  }

  lemma MakeOn(job: Job, f: Shared, t: Token, b: Worker, c: Cid, s: State, pick: Cid) returns (stage: Stage, s': State)
    requires StageOk(job, f, t, b, InCreate(c), s) && s.job == job && StageReady(job, f, t, b)
    ensures s' == Act(s, t, pick) && s'.job == job && StageOk(job, f, t, b, stage, s')
  {
    s' := MakeActs(job, f, t, b, c, s, pick);
    ActJob(s, t, pick);
    if Making(job, f, t, b, c, s'.g, s'.workers[t]) {
      stage := InCreate(c);
    } else {
      stage := InSave(c);
      assert Keepable(job, f, t, b, c);
    }
  }

  /** The row is saved. */
  predicate SavedOk(job: Job, f: Shared, t: Token, b: Worker, c: Cid, s: State)
    requires InRow(job, f, b)
  {
    && (if Begun(f, b.idx) then OwnOf(f, b.idx) == Some(c) else c !in f.used)
    && t < |s.workers| && s.job == job
    && c in KeepShared(job, f, t, b, c).server
    && s.workers[t] == SavedWorker(job, KeepWorker(job, f, b, c))
    && Like(s.g, SavedShared(KeepShared(job, f, t, b, c), b.idx, c, b.rows[b.idx].image))
  }

  lemma KeepOn(job: Job, f: Shared, t: Token, b: Worker, c: Cid, s: State, pick: Cid) returns (s': State)
    requires StageOk(job, f, t, b, InSave(c), s) && s.job == job
    ensures s' == Act(s, t, pick) && s'.job == job
    ensures StageOk(job, f, t, b, InSave(c), s') || SavedOk(job, f, t, b, c, s')
  {
    var f1, b1 := KeepShared(job, f, t, b, c), KeepWorker(job, f, b, c);
    s' := KeepActs(job, f1, t, b1, c, s, pick);
    ActJob(s, t, pick);
    KeepSame(job, f, b, c);
  }

  lemma KeepSame(job: Job, f: Shared, b: Worker, c: Cid)
    requires InRow(job, f, b)
    ensures var b1 := KeepWorker(job, f, b, c);
      && b1.idx == b.idx < |b1.rows| && b1.failed == b.failed
      && b1.rows[b.idx].cid == Some(c) && b1.rows[b.idx].image == b.rows[b.idx].image
  {
    if Begun(f, b.idx) {
      FoundSame(job, b, c);
    } else {
      NewSame(job, b, c);
    }
  }

  lemma FoundSame(job: Job, b: Worker, c: Cid)
    requires AtRow(job, b) && job.depths[b.idx] in b.parents
    ensures var b1 := FoundWorker(job, b, c);
      && b1.idx == b.idx < |b1.rows| && b1.failed == b.failed
      && b1.rows[b.idx].cid == Some(c) && b1.rows[b.idx].image == b.rows[b.idx].image
  {
  }

  lemma NewSame(job: Job, b: Worker, c: Cid)
    requires AtRow(job, b) && job.depths[b.idx] in b.parents
    ensures var b1 := CreatingWorker(job, b, c);
      && b1.idx == b.idx < |b1.rows| && b1.failed == b.failed
      && b1.rows[b.idx].cid == Some(c) && b1.rows[b.idx].image == b.rows[b.idx].image
  {
  }

  lemma RowAdvanced(job: Job, f: Shared, t: Token, b: Worker, c: Cid, s: State)
    requires Sound(job, f, t, b) && Between(job, f, t, b, b.idx) && KnownIds(f)
    requires InRow(job, f, b) && SavedOk(job, f, t, b, c, s)
    ensures Advanced(job, f, b, b.idx, c, s.g, s.workers[t])
  {
    var p := b.idx;
    if Begun(f, p) {
      FoundAgain(job, f, t, b, p);
      FoundAdvanced(job, f, t, b, p, s.g);
    } else {
      PlaceFree(job, f, t, b, p);
      NewAdvanced(job, f, t, b, p, c, s.g);
    }
  }

  /** The worker stands before the next row. */
  lemma RowDone(start: Shared, t: Token, f: Shared, b: Worker, c: Cid, s: State)
    requires Inv(s) && Base(s.job, start, t, f, b) && InRow(s.job, f, b) && SavedOk(s.job, f, t, b, c, s)
    ensures Base(s.job, start, t, s.g, s.workers[t])
  {
    RowAdvanced(s.job, f, t, b, c, s);
    InvSound(s, t);
    NextRow(s.job, f, t, b, c, s.g, s.workers[t]);
    NextFrame(s.job, start, f, b.idx, c, s.g);
  }

  lemma NextRow(job: Job, f: Shared, t: Token, b: Worker, c: Cid, g: Shared, w: Worker)
    requires Between(job, f, t, b, b.idx) && b.idx < |b.rows| && Fresh(BornCids(g.born), job.root)
    requires Advanced(job, f, b, b.idx, c, g, w)
    ensures Between(job, g, t, w, w.idx)
  {
    NextBetween(job, f, t, b, b.idx, c, g, w);
  }

  lemma NextFrame(job: Job, start: Shared, f: Shared, p: nat, c: Cid, g: Shared)
    requires p < |f.rows| == |job.names| && Gained(job, f, p, c, g) && SharedInv(job, g)
    requires Spares(start, f) && (Tidy(start) ==> Tidy(f)) && KnownIds(f)
    ensures Spares(start, g) && (Tidy(start) ==> Tidy(g)) && KnownIds(g)
  {
    GainedSpares(job, f, p, c, g);
    SparesBoth(start, f, g);
    GainedKnown(job, f, p, c, g);
  }

  lemma StageActs(start: Shared, t: Token, f: Shared, b: Worker, stage: Stage, s: State, pick: Cid)
    returns (v: View, s': State)
    requires Inv(s) && Fits(start, t, Since(f, b, stage), s)
    ensures s' == Act(s, t, pick) && Fits(start, t, v, s')
  {
    RowStages(s.job, f, t, b);
    if stage.InSave? {
      s' := KeepOn(s.job, f, t, b, stage.cid, s, pick);
      if StageOk(s.job, f, t, b, stage, s') {
        v := Since(f, b, stage);
      } else {
        ActInv(s, t, pick);
        RowDone(start, t, f, b, stage.cid, s');
        v := Since(s'.g, s'.workers[t], AtStart);
      }
    } else {
      var stage';
      stage', s' := EarlyActs(s.job, f, t, b, stage, s, pick);
      v := Since(f, b, stage');
    }
  }

  lemma EarlyActs(job: Job, f: Shared, t: Token, b: Worker, stage: Stage, s: State, pick: Cid)
    returns (stage': Stage, s': State)
    requires StageOk(job, f, t, b, stage, s) && s.job == job && StageReady(job, f, t, b) && !stage.InSave?
    requires |s.g.rows| == |b.rows| == |job.depths| && 0 <= b.idx <= |b.rows| && b.pc == RowStart && b.kind == Resume
    requires b.outer == Inside
    ensures s' == Act(s, t, pick) && s'.job == job && StageOk(job, f, t, b, stage', s')
  {
    match stage {
      case AtStart => stage', s' := StartActs(job, f, t, b, s, pick);
      case InSearch => stage', s' := SeekOn(job, f, t, b, s, pick);
      case InCreate(c) => stage', s' := MakeOn(job, f, t, b, c, s, pick);
      case AtEnd => stage', s' := AtEnd, s;
    }
  }

  lemma StageDelivers(job: Job, f: Shared, t: Token, b: Worker, stage: Stage, s: State, d: Cid)
    returns (stage': Stage, s': State)
    requires StageOk(job, f, t, b, stage, s) && s.job == job && b.flight == NoFlight
    ensures s' == Deliver(s, t, d) && s'.job == job && StageOk(job, f, t, b, stage', s')
  {
    match stage {
      case InCreate(c) =>
        stage' := InCreate(if s.workers[t].flight.Sent? then d else c);
        s' := Deliver(s, t, d);
        MakeDelivers(job, f, t, b, c, s, d);
        DeliverJob(s, t, d);
      case InSave(c) =>
        stage' := stage;
        s' := Deliver(s, t, d);
        KeepDelivers(job, KeepShared(job, f, t, b, c), t, KeepWorker(job, f, b, c), c, s, d);
        DeliverJob(s, t, d);
      case _ =>
        stage', s' := stage, s;
    }
  }

  lemma StageFinishes(job: Job, f: Shared, t: Token, b: Worker, stage: Stage, s: State) returns (s': State)
    requires StageOk(job, f, t, b, stage, s) && s.job == job && Held(f, t)
    requires b.kind == Resume && !b.failed && !b.stopped && b.outer == Inside && b.pc == RowStart
    ensures s' == Finish(s, t) && s'.job == job && StageOk(job, f, t, b, stage, s')
  {
    if stage == AtEnd {
      s' := Finish(s, t);
      EndFinishes(f, b, t, s);
    } else {
      s' := s;
    }
  }

  lemma EndFinishes(f: Shared, b: Worker, t: Token, s: State)
    requires t < |s.workers| && Held(f, t) && InEnding(f, b, t, s.g, s.workers[t])
    requires b.kind == Resume && !b.failed && !b.stopped && b.outer == Inside
    ensures t < |Finish(s, t).workers| && Finish(s, t).job == s.job
    ensures InEnding(f, b, t, Finish(s, t).g, Finish(s, t).workers[t])
  {
  }

  lemma ViewActs(start: Shared, t: Token, v: View, s: State, pick: Cid) returns (v': View, s': State)
    requires Inv(s) && Fits(start, t, v, s) && Ready(s.job, start) && KnownIds(start)
    ensures s' == Act(s, t, pick) && Fits(start, t, v', s')
  {
    match v {
      case Loading => v', s' := LoadActs(start, t, s, pick);
      case Since(f, b, stage) => v', s' := StageActs(start, t, f, b, stage, s, pick);
    }
  }

  lemma ViewDelivers(start: Shared, t: Token, v: View, s: State, d: Cid) returns (v': View, s': State)
    requires Fits(start, t, v, s)
    ensures s' == Deliver(s, t, d) && Fits(start, t, v', s')
  {
    match v {
      case Loading => v', s' := v, s;
      case Since(f, b, stage) =>
        var stage';
        stage', s' := StageDelivers(s.job, f, t, b, stage, s, d);
        v' := Since(f, b, stage');
    }
  }

  lemma ViewFinishes(start: Shared, t: Token, v: View, s: State) returns (s': State)
    requires Fits(start, t, v, s)
    ensures s' == Finish(s, t) && Fits(start, t, v, s')
  {
    match v {
      case Loading => s' := s;
      case Since(f, b, stage) => s' := StageFinishes(s.job, f, t, b, stage, s);
    }
  }

  lemma ViewWaits(start: Shared, t: Token, v: View, s: State, s': State)
    requires Fits(start, t, v, s) && Waits(s, s') && (s.workers[t].outer == Gone ==> s'.g.run == s.g.run)
    ensures Fits(start, t, v, s')
  {
    match v {
      case Loading => LikeBoth(s'.g, s.g, start);
      case Since(f, b, stage) => StageWaits(s.job, f, t, b, stage, s, s');
    }
  }

  lemma NextView(start: Shared, t: Token, v: View, s: State, e: Event) returns (v': View, s': State)
    requires Inv(s) && Fits(start, t, v, s) && Ready(s.job, start) && KnownIds(start) && Calm(e, t)
    ensures s' == Next(s, e) && Fits(start, t, v', s')
  {
    if e.Acts? {
      NextActs(s, t, e.pick);
      v', s' := ViewActs(start, t, v, s, e.pick);
    } else if e.Delivers? {
      NextDelivers(s, t, e.cid);
      v', s' := ViewDelivers(start, t, v, s, e.cid);
    } else if e.Finishes? {
      NextFinishes(s, t);
      v' := v;
      s' := ViewFinishes(start, t, v, s);
    } else {
      v' := v;
      s' := WaitsNext(s, t, e);
      if s.workers[t].outer == Gone {
        GoneWaits(start, t, v, s, e);
      }
      ViewWaits(start, t, v, s, s');
    }
  }

  lemma GoneWaits(start: Shared, t: Token, v: View, s: State, e: Event)
    requires Fits(start, t, v, s) && s.workers[t].outer == Gone && (e.Ticks? || (e.Beats? && e.t == t))
    ensures Next(s, e).g.run == s.g.run
  {
  }

  // ------------------------------------------------------------ the whole resume

  /** Row `p`'s channel is there with its final banner, and the row knows where. */
  predicate BuiltRow(job: Job, g: Shared, p: nat)
    requires p < |g.rows|
  {
    && Intact(job, g, p)
    && g.server[g.born[p].cid].look.banner == IdUrl(g.born[p].cid)
    && g.rows[p].parentCid == g.born[p].link.parent
  }

  /** The row's prepared image is stored, unless somebody else changed it. */
  predicate Painted(job: Job, g: Shared, p: nat)
  {
    && p < |job.images| && p in g.born
    && (g.born[p].cid in g.touched || (g.born[p].cid in g.images && g.images[g.born[p].cid] == job.images[p]))
  }

  /** The run is completed and released, every row is built and painted, and channels and images
      of others are as they were. */
  ghost predicate RunCompleted(before: Shared, s: State) {
    && s.g.run == RunRow(Completed, None, None) && |s.g.rows| == |s.job.depths| == |s.job.images|
    && (forall p :: 0 <= p < |s.g.rows| ==> BuiltRow(s.job, s.g, p) && Painted(s.job, s.g, p))
    && Spares(before, s.g) && (Tidy(before) ==> Tidy(s.g)) && KnownIds(s.g)
  }

  /** Nothing went wrong for the worker. */
  predicate Undeterred(w: Worker) {
    !w.failed && !w.stopped && w.pc != RowCatch && w.pc != BodyDone(false)
  }

  lemma ClaimedLoading(s: State)
    requires Inv(s) && Started(s, Claim(s, Resume)) && Ready(s.job, s.g) && KnownIds(s.g)
    ensures var s1 := Claim(s, Resume);
      && Inv(s1) && s1.job == s.job && Fits(s1.g, |s.workers|, Loading, s1)
      && Ready(s.job, s1.g) && KnownIds(s1.g)
  {
    var s1 := Claim(s, Resume);
    ClaimInv(s, Resume);
    LikeReady(s.job, s.g, s1.g);
  }

  lemma {:induction false} ResumeView(s: State, events: seq<Event>) returns (v: View, s': State)
    requires Inv(s) && Started(s, Claim(s, Resume)) && AllCalm(events, |s.workers|)
    requires Ready(s.job, s.g) && KnownIds(s.g)
    ensures s' == Run(Claim(s, Resume), events) && Inv(s') && s'.job == s.job
    ensures Fits(Claim(s, Resume).g, |s.workers|, v, s')
  {
    ClaimedLoading(s);
    if events == [] {
      v, s' := Loading, Claim(s, Resume);
    } else {
      var e := events[|events| - 1];
      var v1, s1 := ResumeView(s, events[..|events| - 1]);
      v, s' := NextView(Claim(s, Resume).g, |s.workers|, v1, s1, e);
      NextInv(s1, e);
      NextJob(s1, e);
    }
  }

  lemma FitsUndeterred(start: Shared, t: Token, v: View, s: State)
    requires Fits(start, t, v, s)
    ensures Undeterred(s.workers[t])
  {
    if v.Since? {
      StageUndeterred(s.job, v.f, t, v.b, v.stage, s);
    }
  }

  lemma StageUndeterred(job: Job, f: Shared, t: Token, b: Worker, stage: Stage, s: State)
    requires StageOk(job, f, t, b, stage, s) && !b.failed && !b.stopped && b.pc == RowStart && b.flight == NoFlight
    ensures Undeterred(s.workers[t])
  {
    match stage {
      case InCreate(c) => MakeUndeterred(job, f, t, b, c, s);
      case InSave(c) =>
        KeepSame(job, f, b, c);
        KeepUndeterred(job, KeepShared(job, f, t, b, c), t, KeepWorker(job, f, b, c), c, s);
      case _ =>
    }
  }

  lemma MakeUndeterred(job: Job, f: Shared, t: Token, b: Worker, c: Cid, s: State)
    requires Made(job, f, t, b, c, s) && !b.failed
    ensures Undeterred(s.workers[t])
  {
  }

  lemma KeepUndeterred(job: Job, f: Shared, t: Token, b: Worker, c: Cid, s: State)
    requires Kept(job, f, t, b, c, s) && !b.failed
    ensures Undeterred(s.workers[t])
  {
  }

  lemma GoneCompleted(before: Shared, start: Shared, t: Token, v: View, s: State)
    requires Inv(s) && Fits(start, t, v, s) && s.workers[t].outer == Gone && start == before.(run := start.run)
    ensures RunCompleted(before, s)
  {
    GoneAt(start, t, v, s);
    SparedThroughout(before, start, v.f, s.g);
    AllBuilt(s.job, v.f, t, v.b, s.g);
    AllPainted(s);
  }

  /** The worker left after the last row. */
  lemma GoneAt(start: Shared, t: Token, v: View, s: State)
    requires Fits(start, t, v, s) && s.workers[t].outer == Gone
    ensures v.Since? && Between(s.job, v.f, t, v.b, |v.f.rows|)
    ensures Spares(start, v.f) && (Tidy(start) ==> Tidy(v.f)) && KnownIds(v.f)
    ensures s.g == v.f.(now := s.g.now, run := RunRow(Completed, None, None))
  {
  }

  /** Past the last row every row is built. */
  lemma AllBuilt(job: Job, f: Shared, t: Token, b: Worker, g: Shared)
    requires Between(job, f, t, b, |f.rows|) && g == f.(now := g.now, run := g.run)
    ensures forall p :: 0 <= p < |g.rows| ==> BuiltRow(job, g, p)
  {
    forall p | 0 <= p < |g.rows| ensures BuiltRow(job, g, p) {
      assert Built(job, f, b, p);
    }
  }

  /** A completed run's rows are painted. */
  lemma AllPainted(s: State)
    requires Inv(s) && s.g.run.status == Completed && forall p :: 0 <= p < |s.g.rows| ==> BuiltRow(s.job, s.g, p)
    ensures |s.job.images| == |s.g.rows|
    ensures forall p :: 0 <= p < |s.g.rows| ==> Painted(s.job, s.g, p)
  {
    forall p | 0 <= p < |s.g.rows| ensures Painted(s.job, s.g, p) {
      assert BuiltRow(s.job, s.g, p);
      assert RowInv(s.job, s.g, p) && BornInv(s.job, s.g, p);
    }
  }

  lemma SparedThroughout(before: Shared, start: Shared, f: Shared, g: Shared)
    requires start == before.(run := start.run) && g == f.(now := g.now, run := g.run)
    requires Spares(start, f) && (Tidy(start) ==> Tidy(f)) && KnownIds(f)
    ensures Spares(before, g) && (Tidy(before) ==> Tidy(g)) && KnownIds(g)
  {
    LikeSpares(before, start);
    LikeSpares(f, g);
    SparesBoth(before, start, f);
    SparesBoth(before, f, g);
  }

  /** Recovery: from any state whatever the workers before did, if what they left is intact, every
      undisturbed resume goes through without a failure, and when it is over the run is
      completed and the channels of others are as they were. */
  lemma ResumeCompletes(s: State, events: seq<Event>)
    requires Inv(s) && Started(s, Claim(s, Resume)) && AllCalm(events, |s.workers|)
    requires Ready(s.job, s.g) && KnownIds(s.g)
    ensures var s', t := Run(Claim(s, Resume), events), |s.workers|;
      t < |s'.workers| && Undeterred(s'.workers[t]) && (s'.workers[t].outer == Gone ==> RunCompleted(s.g, s'))
  {
    var v, s' := ResumeView(s, events);
    FitsUndeterred(Claim(s, Resume).g, |s.workers|, v, s');
    if s'.workers[|s.workers|].outer == Gone {
      GoneCompleted(s.g, Claim(s, Resume).g, |s.workers|, v, s');
    }
  }
}
