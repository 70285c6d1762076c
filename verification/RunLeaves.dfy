/** When undo deletes leaves only, so that no channel loses its parent. A creation that is still
    on its way may put a channel under one that undo already found childless (`RunLateChild`);
    the row table tells whether that can happen: a creation on its way has a row whose outcome is
    unknown. */
module RunLeaves {
  import opened Wrappers
  import opened TreeBuilders
  import opened RunMachine
  import opened RunInvariant
  import opened RunFrames
  import opened RunCommands
  import opened RunReachable
  import opened RunTheorems

  predicate HasLiveChild(server: map<Cid, Channel>, c: Cid) {
    exists d :: d in server && server[d].look.pid == Some(c)
  }

  /** No channel hangs under the one worker `w` is about to delete. */
  predicate DeletesLeaf(g: Shared, w: Worker) {
    w.flight.Sent? && w.flight.cmd.DeleteCmd? ==> !HasLiveChild(g.server, w.flight.cmd.cid)
  }

  /** As long as no channel appeared or moved since its listing, a worker deletes a leaf. */
  lemma CurrentListing(job: Job, g: Shared, t: Token, w: Worker)
    requires WorkerInv(job, g, t, w) && (UsesListing(w) ==> w.listedAt == g.moves)
    ensures DeletesLeaf(g, w)
  {
    if w.flight.Sent? && w.flight.cmd.DeleteCmd? {
      var c := w.flight.cmd.cid;
      assert VettedAt(job, w, w.flight.cmd.row, c);
      forall d | d in g.server ensures g.server[d].look.pid != Some(c) {
        assert SeenIn(g, w.snap, d);
      }
    }
  }

  // ------------------------------------------------------------ a child can only be a late creation

  /** The event applies a creation under channel `c`. */
  predicate CreatesUnder(s: State, c: Cid, e: Event) {
    && e.Delivers? && e.t < |s.workers| && s.workers[e.t].flight.Sent?
    && s.workers[e.t].flight.cmd.CreateCmd? && s.workers[e.t].flight.cmd.link.parent == Some(c)
    && e.cid !in s.g.used
  }

  /** As long as outsiders do nothing, a childless channel gets a child exactly when a creation
      on its way is applied under it; and the row of that creation still says its outcome is
      unknown. */
  lemma ChildAppearsIff(s: State, c: Cid, e: Event)
    requires Inv(s) && !HasLiveChild(s.g.server, c) && !e.Outsiders?
    ensures HasLiveChild(Next(s, e).g.server, c) <==> CreatesUnder(s, c, e)
    ensures CreatesUnder(s, c, e) ==>
              var p := s.workers[e.t].flight.cmd.row; p < |s.g.rows| && Open(s.g.rows[p])
  {
    if e.Delivers? && e.t < |s.workers| {
      DeliverChild(s, e.t, c, e.cid);
    } else {
      ServerStays(s, e);
    }
  }

  lemma DeliverChild(s: State, t: Token, c: Cid, d: Cid)
    requires Inv(s) && t < |s.workers| && !HasLiveChild(s.g.server, c)
    ensures HasLiveChild(Deliver(s, t, d).g.server, c) <==> CreatesUnder(s, c, Delivers(t, d))
    ensures CreatesUnder(s, c, Delivers(t, d)) ==>
              var p := s.workers[t].flight.cmd.row; p < |s.g.rows| && Open(s.g.rows[p])
  {
    assert FlightInv(s.job, s.g, t, s.workers[t]);
    var g' := Deliver(s, t, d).g;
    if CreatesUnder(s, c, Delivers(t, d)) {
      assert d in g'.server && g'.server[d].look.pid == Some(c);
    } else {
      forall e | e in g'.server ensures g'.server[e].look.pid != Some(c) {
        assert e in s.g.server ==> s.g.server[e].look.pid != Some(c);
      }
    }
  }

  // ------------------------------------------------------------ no row open

  /** Undo has begun and no creation has an unknown outcome. */
  ghost predicate Settled(g: Shared) {
    UndoSide(g.run.status) && forall p :: 0 <= p < |g.rows| ==> !Open(g.rows[p])
  }

  /** Outsiders neither add nor move channels. */
  predicate MovesNothing(s: State, e: Event) {
    e.Outsiders? ==> Outsider(s.g, e.o).moves == s.g.moves
  }

  ghost predicate NobodyMoves(s: State, events: seq<Event>) {
    forall k :: 0 <= k < |events| ==> MovesNothing(Run(s, events[..k]), events[k])
  }

  /** A worker that still uses a listing uses one that shows every channel. */
  predicate Current(g: Shared, w: Worker) {
    UsesListing(w) ==> w.listedAt == g.moves
  }

  ghost predicate CurrentFrom(s: State, t: nat) {
    forall u :: t <= u < |s.workers| ==> Current(s.g, s.workers[u])
  }

  lemma SettledNext(s: State, e: Event)
    requires Inv(s) && Settled(s.g) && MovesNothing(s, e)
    ensures Settled(Next(s, e).g) && Next(s, e).g.moves == s.g.moves
  {
    StatusMoves(s, e);
    if e.Acts? && e.t < |s.workers| {
      SettledActs(s, e.t, e.pick);
    } else if e.Delivers? && e.t < |s.workers| {
      SettledDelivers(s, e.t, e.cid);
    } else if e.Outsiders? {
      OutsiderKeepsRun(s.g, e.o);
    } else {
      ServerStays(s, e);
    }
  }

  /** A create on its way would have an open row. */
  lemma SettledDelivers(s: State, t: Token, c: Cid)
    requires Inv(s) && Settled(s.g) && t < |s.workers|
    ensures Settled(Deliver(s, t, c).g) && Deliver(s, t, c).g.moves == s.g.moves
  {
    assert FlightInv(s.job, s.g, t, s.workers[t]);
    DeliverKeepsRun(s, t, c);
  }

  /** Only a resume announces creations, and none holds the lease any more. */
  lemma SettledActs(s: State, t: Token, pick: Cid)
    requires Inv(s) && Settled(s.g) && t < |s.workers|
    ensures Settled(Act(s, t, pick).g) && Act(s, t, pick).g.moves == s.g.moves
  {
    ActKeepsRun(s, t, pick);
    if Held(s.g, t) {
      HolderOf(s, t);
      UndoWrites(s, t, pick);
    }
  }

  /** Undo stores intents and deletions, nothing else. */
  lemma UndoWrites(s: State, t: Token, pick: Cid)
    requires t < |s.workers| && ShapeInv(s.job, s.workers[t]) && s.workers[t].kind == Undo
    ensures var g' := Act(s, t, pick).g;
      && |g'.rows| == |s.g.rows|
      && forall q :: 0 <= q < |s.g.rows| ==>
           g'.rows[q] == s.g.rows[q] || g'.rows[q].status == Deleting || g'.rows[q].status == Deleted
  {
    var w := s.workers[t];
    if AtRow(s.job, w) && |s.g.rows| == |s.job.depths| && RowPc(w.pc) && !w.pc.WriteIntent? && !w.pc.MarkDeleted? {
      if w.pc.Identify? {
        assert IdentifyStep(s, t, pick).g == s.g;
      }
      assert ActOnRow(s, t, pick).g.rows == s.g.rows;
    }
  }

  /** Between two listings the worker changes its own only by what it created or deleted. */
  predicate SameListing(s: State, t: Token, s': State) {
    && t < |s.workers| && t < |s'.workers| && s'.workers[t].listedAt == s.workers[t].listedAt
    && (s.workers[t].pc.AwaitCreate? || s.workers[t].pc.AwaitDelete? || s'.workers[t].snap == s.workers[t].snap)
  }

  lemma RowListing(s: State, t: Token, pick: Cid)
    requires t < |s.workers| && ShapeInv(s.job, s.workers[t]) && RowPc(s.workers[t].pc) && |s.g.rows| == |s.job.depths|
    ensures SameListing(s, t, ActOnRow(s, t, pick))
  {
    var w := s.workers[t];
    if w.pc.Identify? {
      IdentifyListing(s, t, pick);
    } else if UndoPc(w.pc) || w.pc.RowCatch? {
      BackListing(s, t, pick);
    } else if w.pc.WriteParent? || w.pc.Latch? || w.pc.WriteCid? || w.pc.SaveImage? || w.pc.WriteSaved? {
      WriteListing(s, t, pick);
    } else {
      CommandListing(s, t, pick);
    }
  }

  lemma CommandListing(s: State, t: Token, pick: Cid)
    requires t < |s.workers| && ShapeInv(s.job, s.workers[t]) && |s.g.rows| == |s.job.depths|
    requires var pc := s.workers[t].pc;
      LeasePc(pc) || pc.SendCreate? || pc.AwaitCreate? || pc.SendEdit? || pc.AwaitEdit?
    ensures SameListing(s, t, ActOnRow(s, t, pick))
  {
  }

  lemma WriteListing(s: State, t: Token, pick: Cid)
    requires t < |s.workers| && ShapeInv(s.job, s.workers[t]) && |s.g.rows| == |s.job.depths|
    requires var pc := s.workers[t].pc; pc.WriteParent? || pc.Latch? || pc.WriteCid? || pc.SaveImage? || pc.WriteSaved?
    ensures SameListing(s, t, ActOnRow(s, t, pick))
  {
    if s.workers[t].pc.SaveImage? || s.workers[t].pc.WriteSaved? {
      SaveListing(s, t, pick);
    }
  }

  lemma SaveListing(s: State, t: Token, pick: Cid)
    requires t < |s.workers| && ShapeInv(s.job, s.workers[t]) && |s.g.rows| == |s.job.depths|
    requires s.workers[t].pc.SaveImage? || s.workers[t].pc.WriteSaved?
    ensures SameListing(s, t, ActOnRow(s, t, pick))
  {
  }

  lemma IdentifyListing(s: State, t: Token, pick: Cid)
    requires t < |s.workers| && ShapeInv(s.job, s.workers[t]) && s.workers[t].pc.Identify?
    ensures SameListing(s, t, IdentifyStep(s, t, pick))
  {
    var w := s.workers[t];
    if w.pc.todo == {} {
      DecideListing(s.job, w, w.pc.owned);
    }
  }

  lemma DecideListing(job: Job, w: Worker, owned: seq<Cid>)
    requires 0 <= w.idx < |w.rows| && w.idx < |job.names|
    ensures var w' := Decide(job, w, owned);
      w'.listedAt == w.listedAt && w'.snap == w.snap && w'.flight == w.flight && !w'.pc.SendDelete?
  {
    if |owned| == 1 {
      var found := w.Local(w.rows[w.idx].(cid := Some(owned[0])));
      assert found.flight == w.flight && found.listedAt == w.listedAt && found.snap == w.snap;
    }
  }

  lemma BackListing(s: State, t: Token, pick: Cid)
    requires t < |s.workers| && ShapeInv(s.job, s.workers[t]) && |s.g.rows| == |s.job.depths|
    requires UndoPc(s.workers[t].pc) || s.workers[t].pc.RowCatch?
    ensures SameListing(s, t, ActOnRow(s, t, pick))
  {
  }

  /** A step takes a listing into use only by making it. */
  lemma ActCurrent(s: State, t: Token, pick: Cid) returns (s': State)
    requires t < |s.workers| && ShapeInv(s.job, s.workers[t]) && |s.g.rows| == |s.job.depths|
    requires Current(s.g, s.workers[t]) && Act(s, t, pick).g.moves == s.g.moves
    ensures s' == Act(s, t, pick) && t < |s'.workers| && Current(s'.g, s'.workers[t])
  {
    var w := s.workers[t];
    s' := Act(s, t, pick);
    if RowPc(w.pc) {
      RowListing(s, t, pick);
    } else if w.pc.RowStart? {
      StartListing(s, t);
    }
  }

  lemma StartListing(s: State, t: Token)
    requires t < |s.workers| && ShapeInv(s.job, s.workers[t]) && s.workers[t].pc.RowStart?
    ensures SameListing(s, t, if s.workers[t].kind == Resume then ResumeRow(s, t) else UndoRow(s, t))
  {
  }

  lemma CurrentNext(s: State, t: nat, e: Event)
    requires Inv(s) && Next(s, e).g.moves == s.g.moves && CurrentFrom(s, t)
    ensures CurrentFrom(Next(s, e), t)
  {
    var s' := Next(s, e);
    forall u | t <= u < |s'.workers| ensures Current(s'.g, s'.workers[u]) {
      if u < |s.workers| {
        CurrentAt(s, u, e);
      } else {
        NewIsLoading(s, u, e);
      }
    }
  }

  lemma CurrentAt(s: State, u: Token, e: Event)
    requires Inv(s) && u < |s.workers|
    requires Next(s, e).g.moves == s.g.moves && Current(s.g, s.workers[u])
    ensures u < |Next(s, e).workers| && Current(Next(s, e).g, Next(s, e).workers[u])
  {
    assert WorkerInv(s.job, s.g, u, s.workers[u]);
    CurrentOne(s, u, e);
  }

  /** Only a claim adds a worker, and that one has yet to list. */
  lemma NewIsLoading(s: State, u: Token, e: Event)
    requires |s.workers| <= u < |Next(s, e).workers|
    ensures !UsesListing(Next(s, e).workers[u])
  {
    if e.Acts? && e.t < |s.workers| {
      ActSize(s, e.t, e.pick);
    }
  }

  lemma ActSize(s: State, t: Token, pick: Cid)
    requires t < |s.workers|
    ensures |Act(s, t, pick).workers| == |s.workers|
  {
  }

  lemma CurrentOne(s: State, u: Token, e: Event)
    requires u < |s.workers| && ShapeInv(s.job, s.workers[u]) && |s.g.rows| == |s.job.depths|
    requires Next(s, e).g.moves == s.g.moves && Current(s.g, s.workers[u])
    ensures u < |Next(s, e).workers| && Current(Next(s, e).g, Next(s, e).workers[u])
  {
    if e.Acts? && e.t < |s.workers| {
      if e.t == u {
        var s' := ActCurrent(s, u, e.pick);
      } else {
        ActOthers(s, e.t, e.pick, u);
      }
    } else if e.Fails? && e.t < |s.workers| {
      FailCurrent(s, u, e.t);
    } else if e.Delivers? && e.t < |s.workers| {
      DeliverCurrent(s, u, e.t, e.cid);
    }
  }

  lemma DeliverCurrent(s: State, u: Token, t: Token, c: Cid)
    requires u < |s.workers| && t < |s.workers| && Current(s.g, s.workers[u]) && Deliver(s, t, c).g.moves == s.g.moves
    ensures u < |Deliver(s, t, c).workers| && Current(Deliver(s, t, c).g, Deliver(s, t, c).workers[u])
  {
  }

  lemma FailCurrent(s: State, u: Token, t: Token)
    requires u < |s.workers| && t < |s.workers| && ShapeInv(s.job, s.workers[u]) && Current(s.g, s.workers[u])
    ensures u < |Fail(s, t).workers| && Current(Fail(s, t).g, Fail(s, t).workers[u])
  {
  }

  lemma ActOthers(s: State, t: Token, pick: Cid, u: Token)
    requires t < |s.workers| && u < |s.workers| && u != t
    ensures |Act(s, t, pick).workers| == |s.workers| && Act(s, t, pick).workers[u] == s.workers[u]
  {
  }

  /** If no row is open while the workers from `t` on have yet to list the channels, and outsiders
      neither add nor move channels, then over every continuation, with any other workers and any
      failures, whatever one of them deletes is a leaf. */
  lemma {:induction false} UndoDeletesLeaves(s: State, t: nat, events: seq<Event>)
    requires Inv(s) && Settled(s.g) && CurrentFrom(s, t) && NobodyMoves(s, events)
    ensures var s' := Run(s, events);
      && Inv(s') && Settled(s'.g) && CurrentFrom(s', t)
      && forall u :: t <= u < |s'.workers| ==> DeletesLeaf(s'.g, s'.workers[u])
  {
    if events != [] {
      var before, e := events[..|events| - 1], events[|events| - 1];
      forall k | 0 <= k < |before| ensures MovesNothing(Run(s, before[..k]), before[k]) {
        assert before[..k] == events[..k];
      }
      UndoDeletesLeaves(s, t, before);
      assert MovesNothing(Run(s, events[..|events| - 1]), e);
      SettledNext(Run(s, before), e);
      CurrentNext(Run(s, before), t, e);
      NextInv(Run(s, before), e);
    }
    var s' := Run(s, events);
    forall u | t <= u < |s'.workers| ensures DeletesLeaf(s'.g, s'.workers[u]) {
      CurrentListing(s'.job, s'.g, u, s'.workers[u]);
    }
  }

  // ------------------------------------------------------------ no channel loses its parent

  predicate ParentsPresent(server: map<Cid, Channel>) {
    forall d :: d in server && server[d].look.pid.Some? ==> server[d].look.pid.value in server
  }

  /** Outsiders neither add nor move channels, nor remove one that has subchannels. */
  predicate Careful(s: State, e: Event) {
    MovesNothing(s, e) && (e.Outsiders? && e.o.RemoveChannel? ==> !HasLiveChild(s.g.server, e.o.cid))
  }

  ghost predicate AllCareful(s: State, events: seq<Event>) {
    forall k :: 0 <= k < |events| ==> Careful(Run(s, events[..k]), events[k])
  }

  /** Whatever worker `w` is still about to delete is gone already. */
  predicate Harmless(g: Shared, w: Worker) {
    && (w.flight.Sent? && w.flight.cmd.DeleteCmd? ==> Dead(g, w.flight.cmd.cid))
    && (w.pc.SendDelete? && 0 <= w.idx < |w.rows| && w.rows[w.idx].cid.Some? ==> Dead(g, w.rows[w.idx].cid.value))
  }

  /** The workers before `t` are out: none holds the lease or can still delete anything. */
  ghost predicate OutBefore(s: State, t: nat) {
    && t <= |s.workers| && (s.g.run.leaseToken.Some? ==> t <= s.g.run.leaseToken.value)
    && forall u :: 0 <= u < t ==> Harmless(s.g, s.workers[u])
  }

  /** No intent to delete is pending in the row table. */
  predicate NoIntent(g: Shared) {
    forall p :: 0 <= p < |g.rows| ==> g.rows[p].status != Deleting
  }

  lemma NoIntentHarmless(s: State, u: Token)
    requires Inv(s) && NoIntent(s.g) && u < |s.workers|
    ensures Harmless(s.g, s.workers[u])
  {
    var w := s.workers[u];
    assert WorkerInv(s.job, s.g, u, w) && FlightInv(s.job, s.g, u, w) && PcInv(s.job, s.g, u, w);
    if w.flight.Sent? && w.flight.cmd.DeleteCmd? {
      assert RowInv(s.job, s.g, w.flight.cmd.row);
    }
    if w.pc.SendDelete? {
      assert RowInv(s.job, s.g, w.idx);
    }
  }

  /** Ids are not reused: what is gone stays gone. */
  lemma DeadStays(s: State, e: Event, c: Cid)
    requires Inv(s) && Dead(s.g, c)
    ensures Dead(Next(s, e).g, c)
  {
    if e.Delivers? && e.t < |s.workers| {
      DeliverDead(s, e.t, e.cid, c);
    } else if !e.Outsiders? {
      ServerStays(s, e);
    }
  }

  lemma DeliverDead(s: State, t: Token, d: Cid, c: Cid)
    requires t < |s.workers| && Dead(s.g, c)
    ensures Dead(Deliver(s, t, d).g, c)
  {
  }

  /** Worker `t` is not about to delete anything new. */
  predicate NoNewDelete(s: State, t: Token, s': State) {
    && t < |s.workers| && t < |s'.workers| && !s'.workers[t].pc.SendDelete?
    && (s'.workers[t].flight.Sent? && s'.workers[t].flight.cmd.DeleteCmd? ==> s'.workers[t].flight == s.workers[t].flight)
  }

  /** Without the lease a worker sends no further delete but one it was about to send. */
  lemma HarmlessActs(s: State, t: Token, pick: Cid)
    requires t < |s.workers| && ShapeInv(s.job, s.workers[t]) && |s.g.rows| == |s.job.depths|
    requires !Held(s.g, t) && Harmless(s.g, s.workers[t])
    requires forall c :: Dead(s.g, c) ==> Dead(Act(s, t, pick).g, c)
    ensures t < |Act(s, t, pick).workers| && Harmless(Act(s, t, pick).g, Act(s, t, pick).workers[t])
  {
    var w := s.workers[t];
    if w.pc.SendDelete? {
      LastDelete(s, t);
    } else if RowPc(w.pc) {
      RowDeletes(s, t, pick);
    } else if w.pc.RowStart? {
      StartDeletes(s, t);
    }
  }

  lemma LastDelete(s: State, t: Token)
    requires t < |s.workers| && ShapeInv(s.job, s.workers[t])
    requires s.workers[t].pc.SendDelete? && Harmless(s.g, s.workers[t])
    ensures var w := s.workers[t];
      Harmless(s.g, SendStep(s, t, DeleteCmd(w.idx, w.rows[w.idx].cid.value), AwaitDelete).workers[t])
  {
  }

  lemma StartDeletes(s: State, t: Token)
    requires t < |s.workers| && ShapeInv(s.job, s.workers[t]) && s.workers[t].pc.RowStart?
    ensures NoNewDelete(s, t, if s.workers[t].kind == Resume then ResumeRow(s, t) else UndoRow(s, t))
  {
  }

  lemma RowDeletes(s: State, t: Token, pick: Cid)
    requires t < |s.workers| && ShapeInv(s.job, s.workers[t]) && |s.g.rows| == |s.job.depths| && !Held(s.g, t)
    requires RowPc(s.workers[t].pc) && !s.workers[t].pc.SendDelete?
    ensures NoNewDelete(s, t, ActOnRow(s, t, pick))
  {
    var w := s.workers[t];
    if w.pc.Identify? {
      IdentifyDeletes(s, t, pick);
    } else if UndoPc(w.pc) || w.pc.RowCatch? {
      BackDeletes(s, t, pick);
    }
  }

  lemma IdentifyDeletes(s: State, t: Token, pick: Cid)
    requires t < |s.workers| && ShapeInv(s.job, s.workers[t]) && s.workers[t].pc.Identify?
    ensures NoNewDelete(s, t, IdentifyStep(s, t, pick))
  {
    var w := s.workers[t];
    if w.pc.todo == {} {
      DecideListing(s.job, w, w.pc.owned);
    }
  }

  lemma BackDeletes(s: State, t: Token, pick: Cid)
    requires t < |s.workers| && ShapeInv(s.job, s.workers[t]) && |s.g.rows| == |s.job.depths| && !Held(s.g, t)
    requires (UndoPc(s.workers[t].pc) && !s.workers[t].pc.SendDelete?) || s.workers[t].pc.RowCatch?
    ensures NoNewDelete(s, t, ActOnRow(s, t, pick))
  {
  }

  lemma OutNext(s: State, t: nat, e: Event)
    requires Inv(s) && OutBefore(s, t)
    ensures OutBefore(Next(s, e), t)
  {
    TokenNext(s, t, e);
    forall u | 0 <= u < t ensures u < |Next(s, e).workers| && Harmless(Next(s, e).g, Next(s, e).workers[u]) {
      OutAt(s, u, e);
    }
  }

  lemma TokenNext(s: State, t: nat, e: Event)
    requires t <= |s.workers| && (s.g.run.leaseToken.Some? ==> t <= s.g.run.leaseToken.value)
    ensures var s' := Next(s, e);
      |s.workers| <= |s'.workers| && (s'.g.run.leaseToken.Some? ==> t <= s'.g.run.leaseToken.value)
  {
    if e.Acts? && e.t < |s.workers| {
      ActKeepsRun(s, e.t, e.pick);
      ActSize(s, e.t, e.pick);
    } else if e.Delivers? && e.t < |s.workers| {
      DeliverKeepsRun(s, e.t, e.cid);
    }
  }

  lemma OutAt(s: State, u: Token, e: Event)
    requires Inv(s) && u < |s.workers| && !Held(s.g, u) && Harmless(s.g, s.workers[u])
    ensures u < |Next(s, e).workers| && Harmless(Next(s, e).g, Next(s, e).workers[u])
  {
    assert WorkerInv(s.job, s.g, u, s.workers[u]);
    forall c | Dead(s.g, c) ensures Dead(Next(s, e).g, c) {
      DeadStays(s, e, c);
    }
    if e.Acts? && e.t < |s.workers| {
      OutActs(s, u, e.t, e.pick);
    } else {
      OutElse(s, u, e);
    }
  }

  lemma OutActs(s: State, u: Token, t: Token, pick: Cid)
    requires u < |s.workers| && t < |s.workers| && ShapeInv(s.job, s.workers[u]) && |s.g.rows| == |s.job.depths|
    requires !Held(s.g, u) && Harmless(s.g, s.workers[u])
    requires forall c :: Dead(s.g, c) ==> Dead(Act(s, t, pick).g, c)
    ensures u < |Act(s, t, pick).workers| && Harmless(Act(s, t, pick).g, Act(s, t, pick).workers[u])
  {
    if t == u {
      HarmlessActs(s, u, pick);
    } else {
      ActOthers(s, t, pick, u);
    }
  }

  lemma OutElse(s: State, u: Token, e: Event)
    requires u < |s.workers| && Harmless(s.g, s.workers[u]) && !(e.Acts? && e.t < |s.workers|)
    requires forall c :: Dead(s.g, c) ==> Dead(Next(s, e).g, c)
    ensures u < |Next(s, e).workers| && Harmless(Next(s, e).g, Next(s, e).workers[u])
  {
    if e.Delivers? && e.t < |s.workers| {
      NothingNewDelivered(s, u, e.t, e.cid);
    } else {
      NothingNewElse(s, u, e);
    }
  }

  /** Worker `u` is about to delete nothing but what it was about to delete before. */
  predicate NothingNew(s: State, u: Token, s': State) {
    && u < |s.workers| && u < |s'.workers|
    && var w, w' := s.workers[u], s'.workers[u];
      && (w'.pc.SendDelete? ==> w.pc.SendDelete? && w'.idx == w.idx && w'.rows == w.rows)
      && (w'.flight.Sent? && w'.flight.cmd.DeleteCmd? ==> w'.flight == w.flight)
  }

  lemma NothingNewDelivered(s: State, u: Token, t: Token, c: Cid)
    requires u < |s.workers| && t < |s.workers|
    ensures NothingNew(s, u, Deliver(s, t, c))
  {
  }

  lemma NothingNewElse(s: State, u: Token, e: Event)
    requires u < |s.workers| && !((e.Acts? || e.Delivers?) && e.t < |s.workers|)
    ensures NothingNew(s, u, Next(s, e))
  {
    if e.Fails? && e.t < |s.workers| {
      NothingNewFailed(s, u, e.t);
    } else if e.Finishes? && e.t < |s.workers| {
      NothingNewFinished(s, u, e.t);
    }
  }

  lemma NothingNewFinished(s: State, u: Token, t: Token)
    requires u < |s.workers| && t < |s.workers|
    ensures NothingNew(s, u, Finish(s, t))
  {
  }

  lemma NothingNewFailed(s: State, u: Token, t: Token)
    requires u < |s.workers| && t < |s.workers|
    ensures NothingNew(s, u, Fail(s, t))
  {
  }

  lemma ParentsNext(s: State, t: nat, e: Event)
    requires Inv(s) && Settled(s.g) && CurrentFrom(s, t) && OutBefore(s, t) && Careful(s, e) && ParentsPresent(s.g.server)
    ensures ParentsPresent(Next(s, e).g.server)
  {
    if e.Delivers? && e.t < |s.workers| {
      ParentsDeliver(s, t, e.t, e.cid);
    } else if !e.Outsiders? {
      ServerStays(s, e);
    }
  }

  lemma ParentsDeliver(s: State, t: nat, u: Token, c: Cid)
    requires Inv(s) && Settled(s.g) && CurrentFrom(s, t) && OutBefore(s, t)
    requires u < |s.workers| && ParentsPresent(s.g.server)
    ensures ParentsPresent(Deliver(s, u, c).g.server)
  {
    var w := s.workers[u];
    assert WorkerInv(s.job, s.g, u, w) && FlightInv(s.job, s.g, u, w);
    if u >= t {
      CurrentListing(s.job, s.g, u, w);
    }
  }

  /** If moreover no intent to delete is pending then, no worker before `t` holds the lease, and
      outsiders remove no channel that has subchannels, every channel keeps its parent over every
      continuation, in which undo may stop at any point. */
  lemma {:induction false} UndoKeepsParents(s: State, t: nat, events: seq<Event>)
    requires Inv(s) && Settled(s.g) && CurrentFrom(s, t) && NoIntent(s.g) && ParentsPresent(s.g.server)
    requires t <= |s.workers| && (s.g.run.leaseToken.Some? ==> t <= s.g.run.leaseToken.value)
    requires AllCareful(s, events)
    ensures var s' := Run(s, events);
      ParentsPresent(s'.g.server) && Inv(s') && Settled(s'.g) && CurrentFrom(s', t) && OutBefore(s', t)
  {
    if events == [] {
      forall u | 0 <= u < t ensures Harmless(s.g, s.workers[u]) {
        NoIntentHarmless(s, u);
      }
    } else {
      var before, e := events[..|events| - 1], events[|events| - 1];
      forall k | 0 <= k < |before| ensures Careful(Run(s, before[..k]), before[k]) {
        assert before[..k] == events[..k];
      }
      UndoKeepsParents(s, t, before);
      assert Careful(Run(s, events[..|events| - 1]), e);
      KeepsNext(Run(s, before), t, e);
    }
  }

  lemma KeepsNext(s: State, t: nat, e: Event)
    requires ParentsPresent(s.g.server) && Inv(s) && Settled(s.g) && CurrentFrom(s, t) && OutBefore(s, t) && Careful(s, e)
    ensures var s' := Next(s, e);
      ParentsPresent(s'.g.server) && Inv(s') && Settled(s'.g) && CurrentFrom(s', t) && OutBefore(s', t)
  {
    ParentsNext(s, t, e);
    SettledNext(s, e);
    CurrentNext(s, t, e);
    OutNext(s, t, e);
    NextInv(s, e);
  }
}
