/** The promises of the durable run, for every reachable state and every step. */
module RunTheorems {
  import opened Wrappers
  import opened TreeBuilders
  import opened ForestPlan
  import opened RunMachine
  import opened RunInvariant
  import opened RunFrames
  import opened RunCommands
  import opened RunReachable

  /** A step of somebody. */
  ghost predicate SomeStep(a: State, b: State) {
    exists e :: b == Next(a, e)
  }

  ghost predicate Follows(trail: seq<State>, k: nat) {
    k + 1 < |trail| ==> SomeStep(trail[k], trail[k + 1])
  }

  ghost predicate Trail(trail: seq<State>, from: State, to: State) {
    && |trail| > 0 && trail[0] == from && trail[|trail| - 1] == to
    && forall k: nat :: Follows(trail, k)
  }

  ghost predicate Reachable(s: State) {
    exists s0, trail :: Init(s0) && Trail(trail, s0, s)
  }

  lemma ReachableInv(s: State)
    requires Reachable(s)
    ensures Inv(s)
  {
    var s0, trail :| Init(s0) && Trail(trail, s0, s);
    InitInv(s0);
    TrailInv(trail, s0, s);
  }

  lemma {:induction false} TrailInv(trail: seq<State>, from: State, to: State)
    requires Trail(trail, from, to) && Inv(from)
    ensures Inv(to)
  {
    var n := |trail| - 1;
    if n > 0 {
      forall k: nat ensures Follows(trail[..n], k) {
        assert Follows(trail, k);
      }
      TrailInv(trail[..n], from, trail[n - 1]);
      assert Follows(trail, n - 1);
      StepInv(trail[n - 1], to);
    }
  }

  lemma StepInv(a: State, b: State)
    requires Inv(a) && SomeStep(a, b)
    ensures Inv(b)
  {
    var e :| b == Next(a, e);
    NextInv(a, e);
  }

  lemma OneMoreStep(trail: seq<State>, from: State, to: State, next: State)
    requires Trail(trail, from, to) && SomeStep(to, next)
    ensures Trail(trail + [next], from, next)
  {
    var longer := trail + [next];
    forall k: nat ensures Follows(longer, k) {
      assert Follows(trail, k);
      assert k + 1 < |trail| ==> longer[k] == trail[k] && longer[k + 1] == trail[k + 1];
      assert k + 1 == |trail| ==> longer[k] == to && longer[k + 1] == next;
    }
  }

  /** Whatever a sequence of events leads to is reachable. */
  lemma RunIsReachable(s: State, events: seq<Event>)
    requires Init(s)
    ensures Reachable(Run(s, events))
  {
    var trail := RunTrail(s, events);
  }

  lemma {:induction false} RunTrail(s: State, events: seq<Event>) returns (trail: seq<State>)
    ensures Trail(trail, s, Run(s, events))
  {
    if events == [] {
      trail := [s];
    } else {
      trail := RunTrail(s, events[..|events| - 1]);
      assert SomeStep(Run(s, events[..|events| - 1]), Run(s, events));
      OneMoreStep(trail, s, Run(s, events[..|events| - 1]), Run(s, events));
      trail := trail + [Run(s, events)];
    }
  }

  // ------------------------------------------------------------ creations

  /** However often workers crash, stall, lose leases or replies: the server applies at most
      one channelCreate per row. */
  lemma CreatedAtMostOnce(s: State, p: nat)
    requires Reachable(s) && p < |s.g.applied|
    ensures s.g.applied[p] <= 1
  {
    ReachableInv(s);
    assert RowInv(s.job, s.g, p);
  }

  /** Every live channel carrying the run's marker is the one created for that row, and the row
      holds its id or still says that the outcome of its creation is unknown. */
  lemma LiveChannelsAccounted(s: State, c: Cid)
    requires Reachable(s) && c in s.g.server && s.g.server[c].marker.Some?
    ensures var p := s.g.server[c].marker.value;
      && p < |s.g.rows| && BornCid(s.g, p, c)
      && (s.g.rows[p].cid == Some(c) || Open(s.g.rows[p]))
  {
    ReachableInv(s);
    var p := s.g.server[c].marker.value;
    assert ChannelInv(s.g, c) && BornInv(s.job, s.g, p) && RowInv(s.job, s.g, p);
  }

  /** The same for channels whose marker an outsider removed. */
  lemma CreationsAccounted(s: State, p: nat)
    requires Reachable(s) && p in s.g.born
    ensures p < |s.g.rows|
    ensures s.g.rows[p].cid == Some(s.g.born[p].cid) || Open(s.g.rows[p])
  {
    ReachableInv(s);
    assert BornInv(s.job, s.g, p) && RowInv(s.job, s.g, p);
  }

  /** A creation is only announced for a row with no channel id and no unknown outcome, whose
      parent the worker's listing shows without a channel of the row's name under it. */
  lemma AnnouncedOnFreePlace(s: State, t: Token)
    requires Reachable(s) && t < |s.workers| && s.workers[t].pc == Latch
    ensures var w := s.workers[t];
      && 0 <= w.idx < |w.rows| && w.idx < |s.job.names|
      && w.rows[w.idx].cid.None? && w.rows[w.idx].status != Creating && w.rows[w.idx].status != Uncertain
      && (w.rows[w.idx].parentCid.Some? ==> w.rows[w.idx].parentCid.value in w.snap)
      && forall d :: d in w.snap ==> w.snap[d].pid != w.rows[w.idx].parentCid || w.snap[d].name != s.job.names[w.idx]
  {
    ReachableInv(s);
    var w := s.workers[t];
    assert WorkerInv(s.job, s.g, t, w);
    assert !NameTaken(w.snap, w.rows[w.idx].parentCid, s.job.names[w.idx]);
  }

  /** A deleted row has no live channel, and nobody can still create one. */
  lemma DeletedRowIsGone(s: State, p: nat)
    requires Reachable(s) && p < |s.g.rows| && s.g.rows[p].status == Deleted
    ensures p in s.g.born ==> s.g.born[p].cid !in s.g.server
    ensures forall t :: 0 <= t < |s.workers| ==>
              !(s.workers[t].flight.Sent? && s.workers[t].flight.cmd.CreateCmd? && s.workers[t].flight.cmd.row == p)
  {
    ReachableInv(s);
    assert RowInv(s.job, s.g, p);
    forall t | 0 <= t < |s.workers|
      ensures !(s.workers[t].flight.Sent? && s.workers[t].flight.cmd.CreateCmd? && s.workers[t].flight.cmd.row == p)
    {
      assert FlightInv(s.job, s.g, t, s.workers[t]);
    }
  }

  /** Deleted is final: no continuation revives the row or creates its channel again. */
  lemma {:induction false} DeletedForever(s: State, events: seq<Event>, p: nat)
    requires Inv(s) && p < |s.g.rows| && s.g.rows[p].status == Deleted
    ensures var g' := Run(s, events).g;
      p < |g'.rows| == |g'.applied| && g'.rows[p].status == Deleted && g'.applied[p] == s.g.applied[p]
  {
    if events != [] {
      var before := events[..|events| - 1];
      DeletedForever(s, before, p);
      RunInv(s, before);
      DeletedStays(Run(s, before), events[|events| - 1], p);
      NextInv(Run(s, before), events[|events| - 1]);
    }
  }

  predicate Spared(g: Shared, g': Shared, p: nat) {
    && p < |g.rows| == |g'.rows| == |g.applied| == |g'.applied|
    && g'.rows[p].status == Deleted
    && g'.applied[p] == g.applied[p]
  }

  lemma DeletedStays(s: State, e: Event, p: nat)
    requires Inv(s) && p < |s.g.rows| && s.g.rows[p].status == Deleted
    ensures Spared(s.g, Next(s, e).g, p)
  {
    if e.Acts? && e.t < |s.workers| {
      ActKeepsRun(s, e.t, e.pick);
      if Held(s.g, e.t) {
        HolderSpares(s, e.t, e.pick, p);
      }
    } else if e.Delivers? && e.t < |s.workers| {
      DeliverSpares(s, e.t, e.cid, p);
    } else if e.Fails? || e.HitsDeadline? || e.FinishFails? || e.Refuses? {
      FaultKeepsRun(s, e);
    } else if e.Outsiders? {
      OutsiderKeepsRun(s.g, e.o);
    }
  }

  /** A create on its way is for a row that is not deleted. */
  lemma DeliverSpares(s: State, t: Token, c: Cid, p: nat)
    requires Inv(s) && t < |s.workers| && p < |s.g.rows| && s.g.rows[p].status == Deleted
    ensures Spared(s.g, Deliver(s, t, c).g, p)
  {
    assert FlightInv(s.job, s.g, t, s.workers[t]);
  }

  lemma HolderSpares(s: State, t: Token, pick: Cid, p: nat)
    requires Inv(s) && t < |s.workers| && Held(s.g, t)
    requires p < |s.g.rows| && s.g.rows[p].status == Deleted
    ensures var g' := Act(s, t, pick).g;
      |g'.rows| == |s.g.rows| && g'.rows[p].status == Deleted
  {
    HolderOf(s, t);
    assert RowInv(s.job, s.g, p);
    UndoSpares(s, t, pick, p);
  }

  lemma UndoSpares(s: State, t: Token, pick: Cid, p: nat)
    requires t < |s.workers| && Held(s.g, t) && p < |s.g.rows| && s.g.rows[p].status == Deleted
    requires ShapeInv(s.job, s.workers[t]) && s.workers[t].kind == Undo
    requires HolderPcInv(s.job, s.g, s.workers[t])
    ensures var g' := Act(s, t, pick).g;
      |g'.rows| == |s.g.rows| && g'.rows[p].status == Deleted
  {
    var w := s.workers[t];
    if AtRow(s.job, w) && |s.g.rows| == |s.job.depths| && RowPc(w.pc) && !w.pc.WriteIntent? && !w.pc.MarkDeleted? {
      if w.pc.Identify? {
        assert IdentifyStep(s, t, pick).g == s.g;
      }
      assert ActOnRow(s, t, pick).g.rows == s.g.rows;
    }
  }

  /** An undone run has left no channel behind. */
  lemma UndoneLeavesNothing(s: State)
    requires Reachable(s) && s.g.run.status == Undone
    ensures forall p :: 0 <= p < |s.g.rows| ==> s.g.rows[p].status == Deleted
    ensures forall p :: p in s.g.born ==> s.g.born[p].cid !in s.g.server
    ensures forall c :: c in s.g.server ==> s.g.server[c].marker == None
  {
    ReachableInv(s);
    forall p | p in s.g.born ensures s.g.born[p].cid !in s.g.server {
      assert BornInv(s.job, s.g, p);
      DeletedRowIsGone(s, p);
    }
    forall c | c in s.g.server ensures s.g.server[c].marker == None {
      assert ChannelInv(s.g, c);
    }
  }

  // ------------------------------------------------------------ status and lease

  predicate StatusMay(a: RunStatus, b: RunStatus) {
    || a == b
    || (b == Running && (a == Pending || a == PartialFailure))
    || (a == Running && (b == PartialFailure || b == Completed))
    || (b == Undoing && a != Undone)
    || (a == Undoing && (b == UndoPartial || b == Undone))
  }

  /** The run status only ever takes these ways. */
  lemma StatusMoves(s: State, e: Event)
    requires Inv(s)
    ensures StatusMay(s.g.run.status, Next(s, e).g.run.status)
  {
    if e.Finishes? && e.t < |s.workers| {
      FinishMoves(s, e.t);
      assert Next(s, e) == Finish(s, e.t);
    } else if e.Acts? && e.t < |s.workers| {
      ActKeepsRun(s, e.t, e.pick);
    } else if e.Delivers? && e.t < |s.workers| {
      DeliverKeepsRun(s, e.t, e.cid);
    } else if e.Outsiders? {
      OutsiderKeepsRun(s.g, e.o);
    }
  }

  lemma FinishMoves(s: State, t: Token)
    requires Inv(s) && t < |s.workers|
    ensures StatusMay(s.g.run.status, Finish(s, t).g.run.status)
  {
    if Held(s.g, t) {
      HolderOf(s, t);
    }
  }

  lemma DeliverKeepsRun(s: State, t: Token, c: Cid)
    requires t < |s.workers|
    ensures Deliver(s, t, c).g.run == s.g.run && Deliver(s, t, c).g.rows == s.g.rows
  {
  }

  /** The row loop touches of the run row only its own lease's expiry, and rows only while it
      holds the lease. */
  lemma ActKeepsRun(s: State, t: Token, pick: Cid)
    requires t < |s.workers|
    ensures LeavesRun(s, t, Act(s, t, pick))
  {
    var w := s.workers[t];
    if AtRow(s.job, w) && RowPc(w.pc) && |s.g.rows| == |s.job.depths| {
      RowKeepsRun(s, t, pick);
    }
  }

  /** Whether a step leaves the run row and the row table to the lease holder, and the server
      to the commands on their way. */
  predicate LeavesRun(s: State, t: Token, s': State) {
    && SameServer(s.g, s'.g)
    && s'.g.run.status == s.g.run.status && s'.g.run.leaseToken == s.g.run.leaseToken
    && s'.g.applied == s.g.applied
    && (s'.g.rows == s.g.rows || Held(s.g, t))
    && (s'.g.run == s.g.run || (Held(s.g, t) && s'.g.run.leaseUntil == Some(s.g.now + 60000)))
    && s'.g.now == s.g.now
  }

  predicate SameServer(g: Shared, g': Shared) {
    && g'.server == g.server && g'.used == g.used && g'.born == g.born
    && g'.edited == g.edited && g'.touched == g.touched && g'.moves == g.moves
  }

  lemma RowKeepsRun(s: State, t: Token, pick: Cid)
    requires t < |s.workers| && AtRow(s.job, s.workers[t]) && |s.g.rows| == |s.job.depths|
    requires RowPc(s.workers[t].pc)
    ensures LeavesRun(s, t, ActOnRow(s, t, pick))
  {
    var pc := s.workers[t].pc;
    if LeasePc(pc) || pc.Identify? {
      CheckKeepsRun(s, t, pick);
    } else if pc.SendCreate? || pc.AwaitCreate? || pc.SendEdit? || pc.AwaitEdit? || pc.SendDelete? || pc.AwaitDelete? {
      CommandKeepsRun(s, t, pick);
    } else {
      WriteKeepsRun(s, t, pick);
    }
  }

  lemma CheckKeepsRun(s: State, t: Token, pick: Cid)
    requires t < |s.workers| && AtRow(s.job, s.workers[t]) && |s.g.rows| == |s.job.depths|
    requires LeasePc(s.workers[t].pc) || s.workers[t].pc.Identify?
    ensures LeavesRun(s, t, ActOnRow(s, t, pick))
  {
    if s.workers[t].pc.Identify? {
      assert IdentifyStep(s, t, pick).g == s.g;
    }
  }

  lemma CommandKeepsRun(s: State, t: Token, pick: Cid)
    requires t < |s.workers| && AtRow(s.job, s.workers[t]) && |s.g.rows| == |s.job.depths|
    requires var pc := s.workers[t].pc;
      pc.SendCreate? || pc.AwaitCreate? || pc.SendEdit? || pc.AwaitEdit? || pc.SendDelete? || pc.AwaitDelete?
    ensures ActOnRow(s, t, pick).g == s.g
  {
  }

  lemma WriteKeepsRun(s: State, t: Token, pick: Cid)
    requires t < |s.workers| && AtRow(s.job, s.workers[t]) && |s.g.rows| == |s.job.depths|
    requires var pc := s.workers[t].pc;
      || pc.WriteParent? || pc.Latch? || pc.WriteCid? || pc.SaveImage? || pc.WriteSaved? || pc.WriteIntent?
      || pc.MarkDeleted? || pc.RowCatch?
    ensures LeavesRun(s, t, ActOnRow(s, t, pick))
  {
    var pc := s.workers[t].pc;
    if pc.SaveImage? || pc.WriteSaved? {
      ImageKeepsRun(s, t, pick);
    } else if pc.MarkDeleted? || pc.RowCatch? {
      EndKeepsRun(s, t, pick);
    }
  }

  lemma ImageKeepsRun(s: State, t: Token, pick: Cid)
    requires t < |s.workers| && AtRow(s.job, s.workers[t]) && |s.g.rows| == |s.job.depths|
    requires s.workers[t].pc.SaveImage? || s.workers[t].pc.WriteSaved?
    ensures LeavesRun(s, t, ActOnRow(s, t, pick))
  {
  }

  lemma EndKeepsRun(s: State, t: Token, pick: Cid)
    requires t < |s.workers| && AtRow(s.job, s.workers[t]) && |s.g.rows| == |s.job.depths|
    requires s.workers[t].pc.MarkDeleted? || s.workers[t].pc.RowCatch?
    ensures LeavesRun(s, t, ActOnRow(s, t, pick))
  {
  }

  /** Fencing: rows change only by a worker holding the lease; a lease passes on only when it
      has expired, and is given up only by its holder. */
  lemma Fencing(s: State, e: Event)
    ensures HolderOnly(s, e, Next(s, e))
  {
    if e.Acts? && e.t < |s.workers| {
      ActKeepsRun(s, e.t, e.pick);
    } else if e.Delivers? && e.t < |s.workers| {
      DeliverKeepsRun(s, e.t, e.cid);
    } else if e.Outsiders? {
      OutsiderKeepsRun(s.g, e.o);
    } else if e.Fails? || e.HitsDeadline? || e.FinishFails? || e.Refuses? {
      FaultKeepsRun(s, e);
    }
  }

  predicate HolderOnly(s: State, e: Event, s': State) {
    && (s'.g.rows != s.g.rows ==> e.Acts? && Held(s.g, e.t))
    && (s'.g.run != s.g.run ==>
          || (e.ClaimBy? && (s.g.run.leaseUntil.None? || s.g.run.leaseUntil.value < s.g.now))
          || ((e.Acts? || e.Finishes? || e.Beats?) && Held(s.g, e.t)))
    && (s'.g.run.leaseToken != s.g.run.leaseToken && s.g.run.leaseUntil.Some? ==>
          || (e.ClaimBy? && s.g.run.leaseUntil.value < s.g.now)
          || (e.Finishes? && Held(s.g, e.t)))
  }

  lemma OutsiderKeepsRun(g: Shared, o: Outside)
    ensures Outsider(g, o).run == g.run && Outsider(g, o).rows == g.rows && Outsider(g, o).applied == g.applied
  {
  }

  lemma FaultKeepsRun(s: State, e: Event)
    requires e.Fails? || e.HitsDeadline? || e.FinishFails? || e.Refuses?
    ensures Next(s, e).g == s.g
  {
  }

  /** Only a command taking effect changes the server. */
  lemma ServerStays(s: State, e: Event)
    requires !e.Outsiders? && !(e.Delivers? && e.t < |s.workers|)
    ensures SameServer(s.g, Next(s, e).g)
  {
    if e.Acts? && e.t < |s.workers| {
      ActKeepsRun(s, e.t, e.pick);
    } else if e.Fails? || e.HitsDeadline? || e.FinishFails? || e.Refuses? {
      FaultKeepsRun(s, e);
    }
  }

  /** Once undone always undone; once undoing never running or completed again. */
  lemma {:induction false} OneWay(s: State, events: seq<Event>)
    requires Inv(s)
    ensures UndoSide(s.g.run.status) ==> UndoSide(Run(s, events).g.run.status)
    ensures s.g.run.status == Undone ==> Run(s, events).g.run.status == Undone
  {
    if events != [] {
      var before := events[..|events| - 1];
      OneWay(s, before);
      RunInv(s, before);
      StatusMoves(Run(s, before), events[|events| - 1]);
    }
  }

  /** A completed run has every row saved, under pairwise distinct channels it created. */
  lemma CompletedIsTrue(s: State)
    requires Reachable(s) && s.g.run.status == Completed
    ensures forall p :: 0 <= p < |s.g.rows| ==>
              s.g.rows[p].status == Saved && s.g.rows[p].cid.Some? && BornCid(s.g, p, s.g.rows[p].cid.value)
    ensures forall p, q :: 0 <= p < q < |s.g.rows| ==> s.g.rows[p].cid != s.g.rows[q].cid
  {
    ReachableInv(s);
    forall p | 0 <= p < |s.g.rows|
      ensures s.g.rows[p].status == Saved && s.g.rows[p].cid.Some? && BornCid(s.g, p, s.g.rows[p].cid.value)
    {
      assert RowInv(s.job, s.g, p);
    }
    forall p, q | 0 <= p < q < |s.g.rows| ensures s.g.rows[p].cid != s.g.rows[q].cid {
      assert RowInv(s.job, s.g, p) && RowInv(s.job, s.g, q);
      assert p in BornCids(s.g.born) && q in BornCids(s.g.born);
    }
  }

  // ------------------------------------------------------------ deletions

  /** A delete command names a channel this run created, whose id and delete intent are stored,
      and which the worker's listing shows under the row's name, under the row's parent, with the
      provisional or the final banner, and with no channel under it. */
  lemma DeletesOnlyItsOwn(s: State, t: Token)
    requires Reachable(s) && t < |s.workers|
    requires s.workers[t].flight.Sent? && s.workers[t].flight.cmd.DeleteCmd?
    ensures var w := s.workers[t];
      var DeleteCmd(p, c) := w.flight.cmd;
      && BornCid(s.g, p, c) && p < |s.g.rows| && p < |s.job.names| && p < |w.rows|
      && s.g.rows[p].cid == Some(c) && (s.g.rows[p].status == Deleting || s.g.rows[p].status == Deleted)
      && c in w.snap
      && w.snap[c].name == s.job.names[p]
      && w.snap[c].pid == w.rows[p].parentCid
      && (w.snap[c].banner == RowUrl(p) || w.snap[c].banner == IdUrl(c))
      && forall d :: d in w.snap ==> w.snap[d].pid != Some(c)
  {
    ReachableInv(s);
    assert WorkerInv(s.job, s.g, t, s.workers[t]);
    assert !HasChild(s.workers[t].snap, s.workers[t].flight.cmd.cid);
  }

  // ------------------------------------------------------------ images

  /** The image served for a row under its provisional URL. */
  function GetWallpaperImage(g: Shared, p: nat): Option<Bytes>
    requires p < |g.rows|
  {
    var row := g.rows[p];
    if row.status == Deleted then None
    else if row.cid.Some? && row.cid.value in g.images then Some(g.images[row.cid.value])
    else row.image
  }

  /** A prepared image is never lost: until its row is deleted it is served unchanged, unless
      an outsider changed the image of the row's channel. */
  lemma ImageNeverLost(s: State, p: nat)
    requires Reachable(s) && p < |s.g.rows| && s.g.rows[p].status != Deleted
    requires s.g.rows[p].cid.Some? ==> s.g.rows[p].cid.value !in s.g.touched
    ensures p < |s.job.images| && GetWallpaperImage(s.g, p) == Some(s.job.images[p])
  {
    ReachableInv(s);
    assert RowInv(s.job, s.g, p) && BornInv(s.job, s.g, p);
  }

  // ------------------------------------------------------------ the forest

  function RowCids(g: Shared): map<nat, Cid> {
    map p: nat | p < |g.rows| && g.rows[p].cid.Some? :: g.rows[p].cid.value
  }

  /** A completed run built the plan's forest, however often it was interrupted: every row was
      created under the channel of its planned parent, right after its planned sibling, and
      unless outsiders edited it, its channel still shows that, with its final banner. */
  lemma CompletedForest(s: State)
    requires Reachable(s) && s.g.run.status == Completed
    ensures Stepwise(s.job.depths)
    ensures |s.g.rows| == |s.job.depths| == |s.job.names| && Known(RowCids(s.g), |s.job.depths|)
    ensures forall p :: 0 <= p < |s.job.depths| ==>
              && p in s.g.born && s.g.born[p].cid == RowCids(s.g)[p]
              && Planned(s.job.depths, RowCids(s.g), s.job.root, p, s.g.born[p].link)
              && FinalLook(s.job, s.g, p)
  {
    ReachableInv(s);
    CompletedIsTrue(s);
    forall p | 0 <= p < |s.job.depths|
      ensures p in s.g.born && s.g.born[p].cid == RowCids(s.g)[p]
      ensures Planned(s.job.depths, RowCids(s.g), s.job.root, p, s.g.born[p].link)
      ensures ParentOf(s.job.depths, p) != Missing
      ensures FinalLook(s.job, s.g, p)
    {
      CompletedRow(s, p);
    }
    StepwiseIffRooted(s.job.depths);
  }

  predicate FinalLook(job: Job, g: Shared, p: nat)
    requires p in g.born && p < |job.names|
  {
    var c := g.born[p].cid;
    c in g.server && c !in g.edited ==>
      g.server[c].look == Listed(job.names[p], g.born[p].link.parent, IdUrl(c))
  }

  lemma CompletedRow(s: State, p: nat)
    requires Inv(s) && s.g.run.status == Completed && p < |s.job.depths|
    requires forall q :: 0 <= q < |s.g.rows| ==>
               s.g.rows[q].status == Saved && s.g.rows[q].cid.Some? && BornCid(s.g, q, s.g.rows[q].cid.value)
    ensures Known(RowCids(s.g), |s.job.depths|)
    ensures p in s.g.born && s.g.born[p].cid == RowCids(s.g)[p]
    ensures Planned(s.job.depths, RowCids(s.g), s.job.root, p, s.g.born[p].link)
    ensures FinalLook(s.job, s.g, p)
  {
    assert RowInv(s.job, s.g, p) && BornInv(s.job, s.g, p);
    var born, cids := BornCids(s.g.born), RowCids(s.g);
    forall q: nat | q < |s.job.depths| ensures q in born && q in cids && born[q] == cids[q] {
      assert RowInv(s.job, s.g, q);
    }
  }

  /** Two completed runs of one plan, whatever happened to them, built the same forest up to
      the ids the server gave. */
  lemma SameForestUpToIds(s1: State, s2: State, p: nat, q: nat)
    requires Reachable(s1) && Reachable(s2) && s1.job == s2.job
    requires s1.g.run.status == Completed && s2.g.run.status == Completed
    requires p < |s1.job.depths| && q < |s1.job.depths|
    ensures p in s1.g.born && q in s1.g.born && p in s2.g.born && q in s2.g.born
    ensures s1.g.born[p].link.parent == Some(s1.g.born[q].cid) <==> s2.g.born[p].link.parent == Some(s2.g.born[q].cid)
    ensures s1.g.born[p].link.parent == s1.job.root <==> s2.g.born[p].link.parent == s2.job.root
    ensures s1.g.born[p].link.after == Some(s1.g.born[q].cid) <==> s2.g.born[p].link.after == Some(s2.g.born[q].cid)
    ensures s1.g.born[p].link.after == None <==> s2.g.born[p].link.after == None
  {
    PlaceInForest(s1, p, q);
    PlaceInForest(s2, p, q);
  }

  /** Where a completed run's rows hang depends on the plan alone. */
  lemma PlaceInForest(s: State, p: nat, q: nat)
    requires Reachable(s) && s.g.run.status == Completed
    requires p < |s.job.depths| && q < |s.job.depths|
    ensures p in s.g.born && q in s.g.born
    ensures s.g.born[p].link.parent == Some(s.g.born[q].cid) <==> HangsUnder(s.job.depths, p, q)
    ensures s.g.born[p].link.parent == s.job.root <==> s.job.depths[p] == 0
    ensures s.g.born[p].link.after == Some(s.g.born[q].cid) <==> ComesAfter(s.job.depths, p, q)
    ensures s.g.born[p].link.after == None <==> forall k: nat :: k < p ==> !ComesAfter(s.job.depths, p, k)
  {
    CompletedForest(s);
    PlaceIff(s.job.depths, p, q);
    ReachableInv(s);
    assert BornInv(s.job, s.g, p);
    LinkSays(s.job, s.g.born, p, s.g.born[p].link, q);
  }

  /** A planned link names another row's channel exactly if the plan names that row. */
  lemma LinkSays(job: Job, born: map<nat, Creation>, p: nat, link: Link, q: nat)
    requires LinkOk(job, born, p, link) && Fresh(BornCids(born), job.root) && q in born
    ensures link.parent == Some(born[q].cid) <==> ParentOf(job.depths, p) == Under(q)
    ensures link.parent == job.root <==> ParentOf(job.depths, p) == Root
    ensures link.after == Some(born[q].cid) <==> SiblingBefore(job.depths, p) == Some(q)
    ensures link.after == None <==> SiblingBefore(job.depths, p) == None
  {
    var cids := BornCids(born);
    assert q in cids;
    match ParentOf(job.depths, p) {
      case Root => assert job.root != Some(cids[q]);
      case Under(r) => assert r in cids && (cids[r] == cids[q] ==> r == q) && job.root != Some(cids[r]);
    }
    match SiblingBefore(job.depths, p) {
      case None =>
      case Some(r) => assert r in cids && (cids[r] == cids[q] ==> r == q);
    }
  }
}
