/** Interrupted runs recover: after any number of crashes, stalls, lost leases and lost replies,
    but without interference from outside, one undisturbed resume still completes a run, unless
    a creation was announced whose channel cannot be found. */
module RunInterrupted {
  import opened Wrappers
  import opened TreeBuilders
  import opened ForestPlan
  import opened RunMachine
  import opened RunInvariant
  import opened RunReachable
  import opened RunTheorems
  import opened RunCalm
  import opened RunClaims
  import opened RunEnds
  import opened RunLost
  import opened RunParents
  import opened RunRecovery
  import opened RunCompletion
  import opened RunBackward

  /** Nothing on the server came or went but through the run. */
  ghost predicate Alone(before: Shared, g: Shared) {
    && g.edited == {} && g.touched == {}
    && (!UndoSide(g.run.status) ==> forall q :: q in g.born ==> g.born[q].cid in g.server)
    && (forall d :: OthersSame(before, g, d))
  }

  ghost predicate OthersSame(before: Shared, g: Shared, d: Cid) {
    && (d in before.used ==> d in g.used && !Ours(g, d))
    && (!Ours(g, d) ==>
          (d in g.server <==> d in before.server) && (d in before.server ==> g.server[d] == before.server[d]))
  }

  lemma AloneStep(before: Shared, s: State, e: Event)
    requires Inv(s) && Alone(before, s.g) && !e.Outsiders?
    ensures Alone(before, Next(s, e).g)
  {
    var g, g' := s.g, Next(s, e).g;
    StatusMoves(s, e);
    if e.Delivers? && e.t < |s.workers| {
      AloneDeliver(before, s, e.t, e.cid);
    } else {
      ServerStays(s, e);
      SameBornOurs(g, g');
      forall d ensures OthersSame(before, g', d) {
        assert OthersSame(before, g, d);
      }
    }
  }

  lemma AloneDeliver(before: Shared, s: State, t: Token, c: Cid)
    requires Inv(s) && t < |s.workers| && Alone(before, s.g)
    ensures Alone(before, Deliver(s, t, c).g)
  {
    var g, w := s.g, s.workers[t];
    assert FlightInv(s.job, g, t, w);
    if w.flight.Sent? {
      match w.flight.cmd {
        case CreateCmd(p, link) =>
          if c !in g.used && p < |s.job.names| && p < |g.applied| {
            AloneCreate(before, s.job, g, p, link, c);
          }
        case EditCmd(p, d) =>
          if d in g.server {
            AloneEdit(before, g, Deliver(s, t, c).g, p, d);
          }
        case DeleteCmd(p, d) =>
          assert RowInv(s.job, g, p);
          if d in g.server {
            AloneEdit(before, g, Deliver(s, t, c).g, p, d);
          }
      }
    }
  }

  lemma AloneCreate(before: Shared, job: Job, g: Shared, p: nat, link: Link, c: Cid)
    requires Alone(before, g) && c !in g.used && p !in g.born && p < |job.names| && p < |g.applied|
    ensures Alone(before, ApplyCreate(job, g, p, link, c))
  {
    var g' := ApplyCreate(job, g, p, link, c);
    assert BornCid(g', p, c);
    forall d ensures OthersSame(before, g', d) {
      assert OthersSame(before, g, d);
      if q :| BornCid(g, q, d) {
        assert BornCid(g', q, d);
      }
      if q :| BornCid(g', q, d) {
        assert q != p ==> BornCid(g, q, d);
      }
    }
  }

  /** An edit or a deletion of a channel of this run. */
  lemma AloneEdit(before: Shared, g: Shared, g': Shared, p: nat, c: Cid)
    requires Alone(before, g) && BornCid(g, p, c)
    requires g' == g.(server := g'.server)
    requires forall d :: d != c ==> (d in g'.server <==> d in g.server) && (d in g.server ==> g'.server[d] == g.server[d])
    requires c in g'.server || UndoSide(g.run.status)
    ensures Alone(before, g')
  {
    SameBornOurs(g, g');
    forall d ensures OthersSame(before, g', d) {
      assert OthersSame(before, g, d);
    }
  }

  lemma {:induction false} AloneRun(before: Shared, s: State, events: seq<Event>)
    requires Inv(s) && Alone(before, s.g) && Undisturbed(events)
    ensures Alone(before, Run(s, events).g)
  {
    if events != [] {
      AloneRun(before, s, events[..|events| - 1]);
      RunInv(s, events[..|events| - 1]);
      AloneStep(before, Run(s, events[..|events| - 1]), events[|events| - 1]);
    }
  }

  // ------------------------------------------------------------ what is left is intact

  lemma LeftIntact(s: State, before: Shared, p: nat)
    requires Inv(s) && Alone(before, s.g) && !UndoSide(s.g.run.status) && p in s.g.born
    ensures Intact(s.job, s.g, p)
  {
    assert BornInv(s.job, s.g, p) && RowInv(s.job, s.g, p);
  }

  lemma StillReady(s: State, before: Shared)
    requires Inv(s) && Alone(before, s.g) && !UndoSide(s.g.run.status) && Welcome(s.job, before) && KnownIds(before)
    requires forall p :: 0 <= p < |s.g.rows| ==> !Lost(s.g, p)
    ensures Ready(s.job, s.g)
  {
    RootStays(s, before);
    forall p | 0 <= p < |s.g.rows| ensures RowReady(s.job, s.g, p) {
      RowStillReady(s, before, p);
    }
  }

  lemma RootStays(s: State, before: Shared)
    requires Inv(s) && Alone(before, s.g) && Welcome(s.job, before) && KnownIds(before)
    ensures RootLive(s.job, s.g)
  {
    if s.job.root.Some? {
      assert OthersSame(before, s.g, s.job.root.value);
    }
  }

  lemma RowStillReady(s: State, before: Shared, p: nat)
    requires Inv(s) && Alone(before, s.g) && !UndoSide(s.g.run.status)
    requires Welcome(s.job, before) && KnownIds(before)
    requires p < |s.g.rows| && !Lost(s.g, p)
    ensures RowReady(s.job, s.g, p)
  {
    assert RowInv(s.job, s.g, p);
    if Latched(s.g.rows[p]) {
      LeftIntact(s, before, p);
    } else {
      forall d ensures NoClash(s.job, s.g, p, d) {
        PlaceStillFree(s, before, p, d);
      }
    }
  }

  lemma PlaceStillFree(s: State, before: Shared, p: nat, d: Cid)
    requires Inv(s) && Alone(before, s.g) && !UndoSide(s.g.run.status)
    requires Welcome(s.job, before) && KnownIds(before)
    requires p < |s.g.rows| && p !in s.g.born
    ensures NoClash(s.job, s.g, p, d)
  {
    assert OthersSame(before, s.g, d);
    if q :| BornCid(s.g, q, d) {
      LeftIntact(s, before, q);
    } else {
      OthersPlace(s, before, p, d);
    }
  }

  lemma OthersPlace(s: State, before: Shared, p: nat, d: Cid)
    requires Inv(s) && Alone(before, s.g) && Welcome(s.job, before) && KnownIds(before)
    requires p < |s.g.rows| && !Ours(s.g, d)
    ensures NoClash(s.job, s.g, p, d)
  {
    assert OthersSame(before, s.g, d);
    var parent := ParentOf(s.job.depths, p);
    if parent.Under? && parent.row in s.g.born {
      var c := s.g.born[parent.row].cid;
      assert BornCid(s.g, parent.row, c) && OthersSame(before, s.g, c);
    }
  }

  /** No channel of the run is under an id never given. */
  lemma StillKnown(s: State, before: Shared)
    requires Inv(s) && Alone(before, s.g) && KnownIds(before)
    ensures KnownIds(s.g)
  {
    forall d | d in s.g.server
      ensures d in s.g.used
      ensures s.g.server[d].look.pid.Some? ==> s.g.server[d].look.pid.value in s.g.used
    {
      assert ChannelInv(s.g, d) && OthersSame(before, s.g, d);
      if q :| BornCid(s.g, q, d) {
        assert BornInv(s.job, s.g, q);
        if s.g.born[q].link.parent.Some? {
          ParentUsed(s.job, s.g, q);
        }
      } else if s.g.server[d].look.pid.Some? {
        assert OthersSame(before, s.g, s.g.server[d].look.pid.value);
      }
    }
  }

  lemma InitAlone(s: State)
    requires Init(s) && s.g.edited == {} && s.g.touched == {}
    ensures Alone(s.g, s.g)
  {
    forall d ensures OthersSame(s.g, s.g, d) {
    }
  }

  lemma {:induction false} SameJob(s: State, events: seq<Event>)
    ensures Run(s, events).job == s.job
  {
    if events != [] {
      SameJob(s, events[..|events| - 1]);
      NextJob(Run(s, events[..|events| - 1]), events[|events| - 1]);
    }
  }

  /** A fresh run left alone by outsiders, whatever happened to its workers. */
  ghost predicate Interrupted(s0: State, events: seq<Event>) {
    && Init(s0) && Welcome(s0.job, s0.g) && KnownIds(s0.g) && s0.g.edited == {} && s0.g.touched == {}
    && Undisturbed(events)
  }

  lemma InterruptedAlone(s0: State, events: seq<Event>)
    requires Interrupted(s0, events)
    ensures var s := Run(s0, events); Inv(s) && Alone(s0.g, s.g) && s.job == s0.job && KnownIds(s.g)
  {
    InitInv(s0);
    RunInv(s0, events);
    InitAlone(s0);
    AloneRun(s0.g, s0, events);
    SameJob(s0, events);
    StillKnown(Run(s0, events), s0.g);
  }

  /** No announced creation has become untraceable. */
  ghost predicate NothingLost(g: Shared) {
    forall p :: 0 <= p < |g.rows| ==> !Lost(g, p)
  }

  /** A run interrupted any number of times, by anything but outsiders: when the next undisturbed
      resume is over, the run is completed exactly if no creation was lost; else it has failed,
      ready to be claimed again. */
  lemma InterruptedRunCompletes(s0: State, events: seq<Event>, calm: seq<Event>)
    requires Interrupted(s0, events)
    requires var s := Run(s0, events);
      Started(s, Claim(s, Resume)) && AllCalm(calm, |s.workers|) && EndsBy(Claim(s, Resume), |s.workers|, calm)
    ensures var s := Run(s0, events);
      Run(Claim(s, Resume), calm).g.run == RunRow(if NothingLost(s.g) then Completed else PartialFailure, None, None)
  {
    var s := Run(s0, events);
    InterruptedAlone(s0, events);
    WorkLeaves(s, Resume, calm);
    if NothingLost(s.g) {
      StillReady(s, s0.g);
      ResumeCompletes(s, calm);
    } else {
      var p :| 0 <= p < |s.g.rows| && Lost(s.g, p);
      LostNeverEnds(s, Resume, calm, p);
    }
  }

  /** And there is such a resume for every run that is neither completed nor undone, after
      waiting for the lease to expire. */
  lemma InterruptedRunEnds(s0: State, events: seq<Event>) returns (ms: nat, calm: seq<Event>)
    requires Interrupted(s0, events)
    requires var status := Run(s0, events).g.run.status;
      status == Pending || status == Running || status == PartialFailure
    ensures var s := Run(s0, events + [Ticks(ms)]);
      && Started(s, Claim(s, Resume)) && AllCalm(calm, |s.workers|) && EndsBy(Claim(s, Resume), |s.workers|, calm)
      && Run(Claim(s, Resume), calm).g.run == RunRow(if NothingLost(s.g) then Completed else PartialFailure, None, None)
  {
    ms, calm := Again(s0, events, Resume);
    InterruptedRunCompletes(s0, events + [Ticks(ms)], calm);
  }

  /** Waiting, claiming and working undisturbed to the end. */
  lemma Again(s0: State, events: seq<Event>, kind: Kind) returns (ms: nat, calm: seq<Event>)
    requires Interrupted(s0, events)
    requires var status := Run(s0, events).g.run.status;
      match kind
      case Resume => status == Pending || status == Running || status == PartialFailure
      case Undo => status != Undone
    ensures Interrupted(s0, events + [Ticks(ms)])
    ensures var s := Run(s0, events + [Ticks(ms)]);
      Started(s, Claim(s, kind)) && AllCalm(calm, |s.workers|) && EndsBy(Claim(s, kind), |s.workers|, calm)
  {
    ms := ClaimComes(Run(s0, events), kind);
    RunOneMore(s0, events, Ticks(ms));
    assert Undisturbed(events + [Ticks(ms)]);
    InterruptedAlone(s0, events + [Ticks(ms)]);
    var s := Run(s0, events + [Ticks(ms)]);
    calm := UndisturbedEnds(s, kind, [], RankAfter(Claim(s, kind), |s.workers|, []));
  }

  // ------------------------------------------------------------ taking an interrupted run back

  /** A live channel of the run is as the run left it. */
  lemma LiveIntact(s: State, before: Shared, p: nat)
    requires Inv(s) && Alone(before, s.g) && p in s.g.born && s.g.born[p].cid in s.g.server
    ensures Intact(s.job, s.g, p)
  {
    assert BornInv(s.job, s.g, p) && RowInv(s.job, s.g, p);
  }

  lemma RowStillUndoable(s: State, before: Shared, p: nat)
    requires Inv(s) && ParentsInv(s) && Alone(before, s.g) && p < |s.g.rows| && !Lost(s.g, p)
    ensures RowUndoable(s.job, s.g, p)
  {
    assert RowInv(s.job, s.g, p);
    if p in s.g.born && s.g.born[p].cid in s.g.server {
      LiveIntact(s, before, p);
      BornUnderParent(s, p);
    }
  }

  lemma StillTidy(s: State, before: Shared)
    requires Inv(s) && Alone(before, s.g) && KnownIds(before)
    ensures Tidy(s.g)
  {
    forall d ensures Tended(s.g, d) {
      assert OthersSame(before, s.g, d);
      if d in s.g.server && s.g.server[d].look.pid.Some? {
        assert OthersSame(before, s.g, s.g.server[d].look.pid.value);
      }
    }
  }

  /** The same run, interrupted while it was resumed or undone: when the next undisturbed undo is
      over, the run is undone exactly if no creation was lost, else partly undone; and once undone,
      exactly the channels of others are left, as they were before the run. */
  lemma InterruptedRunUndone(s0: State, events: seq<Event>, calm: seq<Event>)
    requires Interrupted(s0, events)
    requires var s := Run(s0, events);
      Started(s, Claim(s, Undo)) && AllCalm(calm, |s.workers|) && EndsBy(Claim(s, Undo), |s.workers|, calm)
    ensures var s := Run(s0, events); var s' := Run(Claim(s, Undo), calm);
      && s'.g.run == RunRow(if NothingLost(s.g) then Undone else UndoPartial, None, None)
      && (NothingLost(s.g) ==> s'.g.server == s0.g.server)
  {
    var s := Run(s0, events);
    InterruptedAlone(s0, events);
    ParentsRun(s0, events);
    WorkLeaves(s, Undo, calm);
    if NothingLost(s.g) {
      forall p | 0 <= p < |s.g.rows| ensures RowUndoable(s.job, s.g, p) {
        RowStillUndoable(s, s0.g, p);
      }
      StillTidy(s, s0.g);
      UndoCompletes(s, calm);
      OnlyOthersLeft(s0, s, Run(Claim(s, Undo), calm));
    } else {
      var p :| 0 <= p < |s.g.rows| && Lost(s.g, p);
      LostNeverEnds(s, Undo, calm, p);
    }
  }

  /** And there is such an undo for every run that is not undone yet. */
  lemma InterruptedUndoEnds(s0: State, events: seq<Event>) returns (ms: nat, calm: seq<Event>)
    requires Interrupted(s0, events) && Run(s0, events).g.run.status != Undone
    ensures var s := Run(s0, events + [Ticks(ms)]);
      && Started(s, Claim(s, Undo)) && AllCalm(calm, |s.workers|) && EndsBy(Claim(s, Undo), |s.workers|, calm)
      && Run(Claim(s, Undo), calm).g.run == RunRow(if NothingLost(s.g) then Undone else UndoPartial, None, None)
  {
    ms, calm := Again(s0, events, Undo);
    InterruptedRunUndone(s0, events + [Ticks(ms)], calm);
  }

  lemma OnlyOthersLeft(s0: State, s: State, s': State)
    requires Init(s0) && Alone(s0.g, s.g) && TakenBack(s.g, s')
    ensures s'.g.server == s0.g.server
  {
    forall d ensures d in s'.g.server <==> d in s0.g.server {
      assert OthersSame(s0.g, s.g, d);
    }
    forall d | d in s0.g.server ensures s'.g.server[d] == s0.g.server[d] {
      assert OthersSame(s0.g, s.g, d);
    }
  }
}
