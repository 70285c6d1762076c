/** Undisturbed work of one worker, and why every worker's work ends. */
module RunCalm {
  import opened Wrappers
  import opened TreeBuilders
  import opened RunMachine
  import opened RunInvariant
  import opened RunCommands

  /** Nothing fails and nobody else does anything: worker `t` acts, its commands are applied and
      answered, it beats, and time passes. */
  predicate Calm(e: Event, t: Token) {
    e.Ticks? || ((e.Acts? || e.Delivers? || e.Finishes? || e.Beats?) && e.t == t)
  }

  /** No outsider does anything. */
  predicate Undisturbed(events: seq<Event>) {
    forall k :: 0 <= k < |events| ==> !events[k].Outsiders?
  }

  predicate AllCalm(events: seq<Event>, t: Token) {
    forall k :: 0 <= k < |events| ==> Calm(events[k], t)
  }

  /** The same but for the clock and the lease's expiry. */
  predicate Like(g: Shared, base: Shared) {
    g == base.(now := g.now, run := base.run.(leaseUntil := g.run.leaseUntil))
  }

  lemma LikeBoth(a: Shared, b: Shared, c: Shared)
    requires Like(a, b) && Like(b, c)
    ensures Like(a, c)
  {
  }

  /** Only time passed, or the lease was renewed. */
  predicate Waits(s: State, s': State) {
    s'.job == s.job && s'.workers == s.workers && Like(s'.g, s.g)
  }

  lemma WaitsNext(s: State, t: Token, e: Event) returns (s': State)
    requires t < |s.workers| && (e.Ticks? || (e.Beats? && e.t == t))
    ensures s' == Next(s, e) && Waits(s, s')
  {
    s' := Next(s, e);
  }

  lemma NextActs(s: State, t: Token, pick: Cid)
    requires t < |s.workers|
    ensures Next(s, Acts(t, pick)) == Act(s, t, pick)
  {
  }

  lemma NextDelivers(s: State, t: Token, c: Cid)
    requires t < |s.workers|
    ensures Next(s, Delivers(t, c)) == Deliver(s, t, c)
  {
  }

  lemma NextFinishes(s: State, t: Token)
    requires t < |s.workers|
    ensures Next(s, Finishes(t)) == Finish(s, t)
  {
  }

  /** What comes next around the loop. */
  function OuterNext(w: Worker): Outer {
    match w.outer
    case Inside => if w.pc.BodyDone? then Closing(w.pc.ok && !w.failed && !w.stopped) else Inside
    case Closing(_) => Releasing
    case _ => Gone
  }

  lemma OnlyOuter(s: State, u: Token)
    requires u < |s.workers|
    ensures Finish(s, u).workers == s.workers[u := s.workers[u].(outer := OuterNext(s.workers[u]))]
  {
    var w := s.workers[u];
    assert w.(outer := w.outer) == w;
    assert s.workers[u := w] == s.workers;
  }

  /** A delivery changes nothing of a worker but what it knows of its command. */
  lemma OnlyFlight(s: State, u: Token, c: Cid) returns (flight: Flight)
    requires u < |s.workers|
    ensures Deliver(s, u, c).workers == s.workers[u := s.workers[u].(flight := flight)]
    ensures flight == s.workers[u].flight || flight.Applied?
  {
    var w := s.workers[u];
    assert w.(flight := w.flight) == w;
    assert s.workers[u := w] == s.workers;
    flight := Deliver(s, u, c).workers[u].flight;
  }

  lemma OnlyRunRow(s: State, u: Token)
    requires u < |s.workers|
    ensures Finish(s, u).g == s.g.(run := Finish(s, u).g.run) && Finish(s, u).job == s.job
  {
  }

  lemma RunOneMore(s: State, events: seq<Event>, e: Event)
    ensures Run(s, events + [e]) == Next(Run(s, events), e)
  {
    assert (events + [e])[..|events|] == events;
  }

  lemma NextJob(s: State, e: Event)
    ensures Next(s, e).job == s.job
  {
  }

  lemma ActJob(s: State, t: Token, pick: Cid)
    requires t < |s.workers|
    ensures Act(s, t, pick).job == s.job
  {
  }

  lemma DeliverJob(s: State, t: Token, c: Cid)
    requires t < |s.workers|
    ensures Deliver(s, t, c).job == s.job
  {
  }

  // ------------------------------------------------------------ every worker's work ends

  /** How much is left to do, most significant part first. */
  datatype Rank = Rank(outer: nat, rows: nat, pc: nat, todo: nat, flight: nat)

  predicate Lower(a: Rank, b: Rank) {
    || a.outer < b.outer
    || (a.outer == b.outer
        && (|| a.rows < b.rows
            || (a.rows == b.rows
                && (|| a.pc < b.pc
                    || (a.pc == b.pc && (a.todo < b.todo || (a.todo == b.todo && a.flight < b.flight)))))))
  }

  function OuterRank(o: Outer): nat {
    match o
    case Inside => 4
    case Closing(ok) => if ok then 3 else 2
    case Releasing => 1
    case Gone => 0
  }

  function PcRank(pc: Pc): nat {
    match pc
    case Load => 25
    case ListChannels => 24
    case RowStart => 23
    case WriteParent => 22
    case Identify(_, _) => 21
    case Latch => 20
    case CreateLease => 19
    case SendCreate => 18
    case AwaitCreate => 17
    case CidLease => 16
    case WriteCid => 15
    case ImageLease => 14
    case SaveImage => 13
    case EditLease => 12
    case SendEdit => 11
    case AwaitEdit => 10
    case WriteSaved => 9
    case IntentLease => 8
    case WriteIntent => 7
    case DeleteLease => 6
    case SendDelete => 5
    case AwaitDelete => 4
    case MarkDeleted => 3
    case RowCatch => 2
    case BodyDone(_) => 0
  }

  function Rows(kind: Kind, n: nat, idx: int): nat {
    match kind
    case Resume => if idx <= n then n - idx else 0
    case Undo => if idx >= -1 then idx + 1 else 0
  }

  function RankOf(n: nat, w: Worker): Rank {
    Rank(OuterRank(w.outer), Rows(w.kind, n, w.idx), PcRank(w.pc),
         if w.pc.Identify? then |w.pc.todo| else 0, if w.flight.Sent? then 1 else 0)
  }

  predicate Lowers(n: nat, w: Worker, w': Worker) {
    Lower(RankOf(n, w'), RankOf(n, w))
  }

  /** A step that changes nothing at all, or brings worker `t` nearer to its end. */
  predicate Nearer(s: State, t: Token, s': State) {
    && t < |s.workers| == |s'.workers|
    && (s' == s || Lowers(|s.job.depths|, s.workers[t], s'.workers[t]))
  }

  /** Within a row. */
  predicate Onward(w: Worker, w': Worker) {
    w'.outer == w.outer && w'.kind == w.kind && w'.idx == w.idx && PcRank(w'.pc) < PcRank(w.pc)
  }

  predicate OwnStep(e: Event) {
    e.Acts? || e.Fails? || e.HitsDeadline? || e.Finishes? || e.FinishFails? || e.Delivers? || e.Refuses?
  }

  /** Every step of a worker, calm or not, changes nothing at all or brings the worker nearer to
      its end: no worker goes on for ever. */
  lemma WorkEnds(s: State, e: Event)
    requires OwnStep(e) && e.t < |s.workers| && ShapeInv(s.job, s.workers[e.t])
    ensures Nearer(s, e.t, Next(s, e))
  {
    var t := e.t;
    if e.Acts? {
      ActEnds(s, t, e.pick);
    } else if e.Delivers? {
      DeliverEnds(s, t, e.cid);
    } else if e.Fails? {
      FailEnds(s, t);
    } else if e.Finishes? {
      FinishEnds(s, t);
    } else {
      CloseEnds(s, e);
    }
  }

  lemma FinishEnds(s: State, t: Token)
    requires t < |s.workers|
    ensures Nearer(s, t, Finish(s, t))
  {
    var w := s.workers[t];
    if w.outer == Inside && w.pc.BodyDone? {
      var w' := w.(outer := Closing(w.pc.ok && !w.failed && !w.stopped));
      assert Lowers(|s.job.depths|, w, w') && Finish(s, t) == s.Put(t, w');
    }
  }

  lemma CloseEnds(s: State, e: Event)
    requires (e.HitsDeadline? || e.FinishFails? || e.Refuses?) && e.t < |s.workers|
    ensures Nearer(s, e.t, Next(s, e))
  {
  }

  lemma FailEnds(s: State, t: Token)
    requires t < |s.workers| && ShapeInv(s.job, s.workers[t])
    ensures Nearer(s, t, Fail(s, t))
  {
  }

  lemma DeliverEnds(s: State, t: Token, c: Cid)
    requires t < |s.workers|
    ensures Nearer(s, t, Deliver(s, t, c))
  {
  }

  lemma ActEnds(s: State, t: Token, pick: Cid)
    requires t < |s.workers| && ShapeInv(s.job, s.workers[t])
    ensures Nearer(s, t, Act(s, t, pick))
  {
    var w := s.workers[t];
    if |s.g.rows| == |s.job.depths| && RowPc(w.pc) {
      var s' := RowEnds(s, t, pick);
    } else if |s.g.rows| == |s.job.depths| && w.pc.RowStart? {
      RowStartEnds(s, t);
    }
  }

  lemma RowStartEnds(s: State, t: Token)
    requires t < |s.workers| && ShapeInv(s.job, s.workers[t]) && s.workers[t].pc.RowStart?
    ensures Nearer(s, t, if s.workers[t].kind == Resume then ResumeRow(s, t) else UndoRow(s, t))
  {
  }

  lemma RowEnds(s: State, t: Token, pick: Cid) returns (s': State)
    requires t < |s.workers| && ShapeInv(s.job, s.workers[t]) && |s.g.rows| == |s.job.depths| && RowPc(s.workers[t].pc)
    ensures s' == ActOnRow(s, t, pick) && Nearer(s, t, s')
  {
    var w := s.workers[t];
    if LeasePc(w.pc) {
      s' := AssertLease(s, t, w.Go(LeaseNext(w.pc)));
      LeaseEnds(s, t, LeaseNext(w.pc));
    } else if w.pc.Identify? {
      s' := IdentifyStep(s, t, pick);
      IdentifyEnds(s, t, pick);
    } else if w.pc.AwaitCreate? || w.pc.AwaitEdit? || w.pc.AwaitDelete?
              || w.pc.SendCreate? || w.pc.SendEdit? || w.pc.SendDelete? {
      s' := CommandEnds(s, t, pick);
    } else if w.pc.WriteSaved? || w.pc.MarkDeleted? || w.pc.RowCatch? {
      s' := LastEnds(s, t, pick);
    } else {
      s' := WriteEnds(s, t, pick);
    }
  }

  lemma IdentifyEnds(s: State, t: Token, pick: Cid)
    requires t < |s.workers| && ShapeInv(s.job, s.workers[t]) && s.workers[t].pc.Identify?
    ensures Nearer(s, t, IdentifyStep(s, t, pick))
  {
    var w := s.workers[t];
    var todo := w.pc.todo;
    if todo == {} {
      DecideOnward(s.job, w, w.pc.owned);
      assert IdentifyStep(s, t, pick).workers[t] == Decide(s.job, w, w.pc.owned);
    } else if pick in todo {
      assert |todo - {pick}| < |todo|;
    }
  }

  lemma DecideOnward(job: Job, w: Worker, owned: seq<Cid>)
    requires 0 <= w.idx < |w.rows| && w.idx < |job.names| && w.pc.Identify?
    ensures Onward(w, Decide(job, w, owned))
  {
    if |owned| == 1 {
      assert Onward(w, w.Local(w.rows[w.idx].(cid := Some(owned[0]))).Go(CidLease));
    } else if |owned| == 0 {
      assert Onward(w, w.Go(Latch)) && Onward(w, w.Go(MarkDeleted)) && Onward(w, w.Catch());
    }
  }

  lemma WriteParentEnds(s: State, t: Token)
    requires t < |s.workers| && AtRow(s.job, s.workers[t]) && |s.g.rows| == |s.job.depths|
    requires s.workers[t].pc.WriteParent?
    ensures Nearer(s, t, WriteParentStep(s, t))
  {
  }

  lemma LatchEnds(s: State, t: Token)
    requires t < |s.workers| && AtRow(s.job, s.workers[t]) && |s.g.rows| == |s.job.depths|
    requires s.workers[t].pc.Latch?
    ensures Nearer(s, t, LatchStep(s, t))
  {
  }

  lemma WriteCidEnds(s: State, t: Token)
    requires t < |s.workers| && AtRow(s.job, s.workers[t]) && |s.g.rows| == |s.job.depths|
    requires s.workers[t].pc.WriteCid?
    ensures Nearer(s, t, WriteCidStep(s, t))
  {
  }

  lemma SaveImageEnds(s: State, t: Token)
    requires t < |s.workers| && AtRow(s.job, s.workers[t]) && |s.g.rows| == |s.job.depths|
    requires s.workers[t].pc.SaveImage?
    ensures Nearer(s, t, SaveImageStep(s, t))
  {
    var w := s.workers[t];
    if w.rows[w.idx].cid.Some? {
      var w' := SaveImageStep(s, t).workers[t];
      assert w' == w.Go(EditLease) || w' == w.Catch();
    }
  }

  lemma WriteIntentEnds(s: State, t: Token)
    requires t < |s.workers| && AtRow(s.job, s.workers[t]) && |s.g.rows| == |s.job.depths|
    requires s.workers[t].pc.WriteIntent?
    ensures Nearer(s, t, WriteIntentStep(s, t))
  {
  }

  lemma WriteSavedEnds(s: State, t: Token)
    requires t < |s.workers| && AtRow(s.job, s.workers[t]) && |s.g.rows| == |s.job.depths|
    requires s.workers[t].pc.WriteSaved? && s.workers[t].kind == Resume
    ensures Nearer(s, t, WriteSavedStep(s, t))
  {
  }

  lemma MarkDeletedEnds(s: State, t: Token)
    requires t < |s.workers| && AtRow(s.job, s.workers[t]) && |s.g.rows| == |s.job.depths|
    requires s.workers[t].pc.MarkDeleted? && s.workers[t].kind == Undo
    ensures Nearer(s, t, MarkDeletedStep(s, t))
  {
  }

  lemma RowCatchEnds(s: State, t: Token)
    requires t < |s.workers| && AtRow(s.job, s.workers[t]) && |s.g.rows| == |s.job.depths|
    requires s.workers[t].pc.RowCatch?
    ensures Nearer(s, t, RowCatchStep(s, t))
  {
  }

  lemma AwaitCreateEnds(s: State, t: Token)
    requires t < |s.workers| && AtRow(s.job, s.workers[t]) && |s.g.rows| == |s.job.depths|
    requires s.workers[t].pc.AwaitCreate?
    ensures Nearer(s, t, AwaitCreateStep(s, t))
  {
  }

  lemma AwaitEditEnds(s: State, t: Token)
    requires t < |s.workers| && AtRow(s.job, s.workers[t]) && |s.g.rows| == |s.job.depths|
    requires s.workers[t].pc.AwaitEdit?
    ensures Nearer(s, t, AwaitEditStep(s, t))
  {
  }

  lemma AwaitDeleteEnds(s: State, t: Token)
    requires t < |s.workers| && AtRow(s.job, s.workers[t]) && |s.g.rows| == |s.job.depths|
    requires s.workers[t].pc.AwaitDelete?
    ensures Nearer(s, t, AwaitDeleteStep(s, t))
  {
    var w, s' := s.workers[t], AwaitDeleteStep(s, t);
    assert w.flight.Applied? || w.flight.Refused? ==> PcRank(s'.workers[t].pc) < PcRank(w.pc);
  }

  lemma SendEnds(s: State, t: Token, cmd: Cmd, next: Pc)
    requires t < |s.workers| && PcRank(RowCatch) < PcRank(s.workers[t].pc) && PcRank(next) < PcRank(s.workers[t].pc)
    ensures Nearer(s, t, SendStep(s, t, cmd, next))
  {
  }

  lemma LeaseEnds(s: State, t: Token, next: Pc)
    requires t < |s.workers| && PcRank(RowCatch) < PcRank(s.workers[t].pc) && PcRank(next) < PcRank(s.workers[t].pc)
    ensures Nearer(s, t, AssertLease(s, t, s.workers[t].Go(next)))
  {
  }

  lemma CommandEnds(s: State, t: Token, pick: Cid) returns (s': State)
    requires t < |s.workers| && ShapeInv(s.job, s.workers[t]) && |s.g.rows| == |s.job.depths|
    requires var pc := s.workers[t].pc;
      pc.AwaitCreate? || pc.AwaitEdit? || pc.AwaitDelete? || pc.SendCreate? || pc.SendEdit? || pc.SendDelete?
    ensures s' == ActOnRow(s, t, pick) && Nearer(s, t, s')
  {
    var w := s.workers[t];
    if w.pc.AwaitCreate? {
      s' := AwaitCreateStep(s, t);
      AwaitCreateEnds(s, t);
    } else if w.pc.AwaitEdit? {
      s' := AwaitEditStep(s, t);
      AwaitEditEnds(s, t);
    } else if w.pc.AwaitDelete? {
      s' := AwaitDeleteStep(s, t);
      AwaitDeleteEnds(s, t);
    } else if w.pc.SendCreate? {
      s' := SendStep(s, t, CreateFor(w), AwaitCreate);
      SendEnds(s, t, CreateFor(w), AwaitCreate);
    } else if w.pc.SendEdit? {
      s' := SendStep(s, t, EditCmd(w.idx, w.rows[w.idx].cid.value), AwaitEdit);
      SendEnds(s, t, EditCmd(w.idx, w.rows[w.idx].cid.value), AwaitEdit);
    } else {
      s' := SendStep(s, t, DeleteCmd(w.idx, w.rows[w.idx].cid.value), AwaitDelete);
      SendEnds(s, t, DeleteCmd(w.idx, w.rows[w.idx].cid.value), AwaitDelete);
    }
  }

  lemma WriteEnds(s: State, t: Token, pick: Cid) returns (s': State)
    requires t < |s.workers| && ShapeInv(s.job, s.workers[t]) && |s.g.rows| == |s.job.depths|
    requires var pc := s.workers[t].pc; pc.WriteParent? || pc.Latch? || pc.WriteCid? || pc.SaveImage? || pc.WriteIntent?
    ensures s' == ActOnRow(s, t, pick) && Nearer(s, t, s')
  {
    var w := s.workers[t];
    if w.pc.WriteParent? {
      s' := WriteParentStep(s, t);
      WriteParentEnds(s, t);
    } else if w.pc.Latch? {
      s' := LatchStep(s, t);
      LatchEnds(s, t);
    } else if w.pc.WriteCid? {
      s' := WriteCidStep(s, t);
      WriteCidEnds(s, t);
    } else if w.pc.SaveImage? {
      s' := SaveImageStep(s, t);
      SaveImageEnds(s, t);
    } else {
      s' := WriteIntentStep(s, t);
      WriteIntentEnds(s, t);
    }
  }

  lemma LastEnds(s: State, t: Token, pick: Cid) returns (s': State)
    requires t < |s.workers| && ShapeInv(s.job, s.workers[t]) && |s.g.rows| == |s.job.depths|
    requires var pc := s.workers[t].pc; pc.WriteSaved? || pc.MarkDeleted? || pc.RowCatch?
    ensures s' == ActOnRow(s, t, pick) && Nearer(s, t, s')
  {
    var w := s.workers[t];
    if w.pc.WriteSaved? {
      s' := WriteSavedStep(s, t);
      WriteSavedEnds(s, t);
    } else if w.pc.MarkDeleted? {
      s' := MarkDeletedStep(s, t);
      MarkDeletedEnds(s, t);
    } else {
      s' := RowCatchStep(s, t);
      RowCatchEnds(s, t);
    }
  }

  // ------------------------------------------------------------ and nobody gets stuck

  /** The step brought worker `t` nearer to its end. */
  predicate Advances(s: State, t: Token, s': State) {
    t < |s.workers| && t < |s'.workers| && Lowers(|s.job.depths|, s.workers[t], s'.workers[t])
  }

  predicate Changes(s: State, t: Token, s': State) {
    t < |s.workers| && t < |s'.workers| && s'.workers[t] != s.workers[t]
  }

  /** The channel an edit or delete on its way names is there. */
  predicate TargetThere(g: Shared, w: Worker) {
    match w.flight
    case Sent(EditCmd(_, d)) => d in g.server
    case Sent(DeleteCmd(_, d)) => d in g.server
    case _ => true
  }

  /** An id the server has not given yet. */
  lemma UnusedId(used: set<Cid>) returns (c: Cid)
    ensures c !in used
  {
    c := Ceiling(used);
  }

  /** A bound above every element of a finite set. */
  lemma Ceiling(s: set<nat>) returns (b: nat)
    ensures forall x :: x in s ==> x < b
  {
    if s == {} {
      b := 0;
    } else {
      var x :| x in s;
      b := Ceiling(s - {x});
      forall y | y in s ensures y == x || y < b {
        assert y != x ==> y in s - {x};
      }
      b := if b <= x then x + 1 else b;
    }
  }

  /** Worker `t` is gone once `events` have happened. */
  predicate EndsBy(s: State, t: Token, events: seq<Event>) {
    var s' := Run(s, events);
    t < |s'.workers| && s'.workers[t].outer == Gone
  }

  /** What worker `t` has left to do after `events`. */
  function RankAfter(s: State, t: Token, events: seq<Event>): Rank {
    var s' := Run(s, events);
    if t < |s'.workers| then RankOf(|s'.job.depths|, s'.workers[t]) else Rank(0, 0, 0, 0, 0)
  }

  /** One more calm step. */
  lemma OneCalmStep(s: State, t: Token, events: seq<Event>) returns (more: seq<Event>)
    requires var s' := Run(s, events);
      Inv(s') && t < |s'.workers| && s'.workers[t].outer != Gone && TargetThere(s'.g, s'.workers[t])
    requires AllCalm(events, t)
    ensures events <= more && AllCalm(more, t) && Lower(RankAfter(s, t, more), RankAfter(s, t, events))
  {
    var s' := Run(s, events);
    var e := GoesOn(s', t);
    more := events + [e];
    RunOneMore(s, events, e);
    NextJob(s', e);
  }

  /** Until a worker is gone, some calm step brings it nearer to its end. */
  lemma GoesOn(s: State, t: Token) returns (e: Event)
    requires Inv(s) && t < |s.workers| && s.workers[t].outer != Gone && TargetThere(s.g, s.workers[t])
    ensures Calm(e, t) && Advances(s, t, Next(s, e))
  {
    var w := s.workers[t];
    assert WorkerInv(s.job, s.g, t, w);
    if w.outer != Inside || w.pc.BodyDone? {
      e := Finishes(t);
      FinishEnds(s, t);
      FinishMoves(s, t);
    } else if w.flight.Sent? {
      e := DeliverMoves(s, t);
    } else {
      e := ActMoves(s, t);
    }
  }

  lemma FinishMoves(s: State, t: Token)
    requires t < |s.workers| && s.workers[t].outer != Gone
    requires s.workers[t].outer != Inside || s.workers[t].pc.BodyDone?
    ensures Changes(s, t, Finish(s, t))
  {
  }

  lemma DeliverMoves(s: State, t: Token) returns (e: Event)
    requires Inv(s) && t < |s.workers| && s.workers[t].flight.Sent? && TargetThere(s.g, s.workers[t])
    ensures Calm(e, t) && Advances(s, t, Next(s, e))
  {
    var c := UnusedId(s.g.used);
    e := Delivers(t, c);
    DeliverEnds(s, t, c);
    CommandFits(s, t);
    DeliverChanges(s, t, c);
  }

  /** A create on its way is for a row of the plan. */
  lemma CommandFits(s: State, t: Token)
    requires Inv(s) && t < |s.workers| && s.workers[t].flight.Sent?
    ensures |s.g.applied| == |s.job.names|
    ensures var cmd := s.workers[t].flight.cmd; cmd.CreateCmd? ==> cmd.row < |s.job.names|
  {
    assert WorkerInv(s.job, s.g, t, s.workers[t]);
    assert FlightInv(s.job, s.g, t, s.workers[t]);
  }

  lemma DeliverChanges(s: State, t: Token, c: Cid)
    requires t < |s.workers| && s.workers[t].flight.Sent? && TargetThere(s.g, s.workers[t])
    requires c !in s.g.used && |s.g.applied| == |s.job.names|
    requires var cmd := s.workers[t].flight.cmd; cmd.CreateCmd? ==> cmd.row < |s.job.names|
    ensures Changes(s, t, Deliver(s, t, c))
  {
  }

  lemma ActMoves(s: State, t: Token) returns (e: Event)
    requires Inv(s) && t < |s.workers| && !s.workers[t].flight.Sent? && !s.workers[t].pc.BodyDone?
    ensures Calm(e, t) && Advances(s, t, Next(s, e))
  {
    var w := s.workers[t];
    var pick :| w.pc.Identify? && w.pc.todo != {} ==> pick in w.pc.todo;
    e := Acts(t, pick);
    assert WorkerInv(s.job, s.g, t, w);
    ActEnds(s, t, pick);
    ActChanges(s, t, pick);
  }

  lemma ActChanges(s: State, t: Token, pick: Cid)
    requires t < |s.workers| && !s.workers[t].flight.Sent? && !s.workers[t].pc.BodyDone? && |s.g.rows| == |s.job.depths|
    requires ShapeInv(s.job, s.workers[t]) && PcInv(s.job, s.g, t, s.workers[t])
    requires var pc := s.workers[t].pc; pc.Identify? && pc.todo != {} ==> pick in pc.todo
    ensures Changes(s, t, Act(s, t, pick))
  {
    var w := s.workers[t];
    if w.pc.Identify? {
      IdentifyChanges(s, t, pick);
      assert Act(s, t, pick) == IdentifyStep(s, t, pick);
    } else if RowPc(w.pc) {
      RowChanges(s, t, pick);
    }
  }

  lemma RowChanges(s: State, t: Token, pick: Cid)
    requires t < |s.workers| && !s.workers[t].flight.Sent? && |s.g.rows| == |s.job.depths|
    requires ShapeInv(s.job, s.workers[t]) && PcInv(s.job, s.g, t, s.workers[t])
    requires RowPc(s.workers[t].pc) && !s.workers[t].pc.Identify?
    ensures Changes(s, t, ActOnRow(s, t, pick))
  {
    var w := s.workers[t];
    if LeasePc(w.pc) {
      var s' := AssertLease(s, t, w.Go(LeaseNext(w.pc)));
      assert s'.workers[t].pc != w.pc;
    } else if w.pc.SendCreate? || w.pc.AwaitCreate? || w.pc.SendEdit?
              || w.pc.AwaitEdit? || w.pc.SendDelete? || w.pc.AwaitDelete? {
      CommandChanges(s, t, pick);
    } else {
      WriteChanges(s, t, pick);
    }
  }

  lemma CommandChanges(s: State, t: Token, pick: Cid)
    requires t < |s.workers| && !s.workers[t].flight.Sent? && |s.g.rows| == |s.job.depths|
    requires ShapeInv(s.job, s.workers[t]) && PcInv(s.job, s.g, t, s.workers[t])
    requires var pc := s.workers[t].pc;
      pc.AwaitCreate? || pc.AwaitEdit? || pc.AwaitDelete? || pc.SendCreate? || pc.SendEdit? || pc.SendDelete?
    ensures Changes(s, t, ActOnRow(s, t, pick))
  {
  }

  lemma WriteChanges(s: State, t: Token, pick: Cid)
    requires t < |s.workers| && !s.workers[t].flight.Sent? && |s.g.rows| == |s.job.depths|
    requires ShapeInv(s.job, s.workers[t]) && PcInv(s.job, s.g, t, s.workers[t])
    requires var pc := s.workers[t].pc;
      || pc.WriteParent? || pc.Latch? || pc.WriteCid? || pc.SaveImage? || pc.WriteSaved? || pc.WriteIntent?
      || pc.MarkDeleted? || pc.RowCatch?
    ensures Changes(s, t, ActOnRow(s, t, pick))
  {
  }

  lemma IdentifyChanges(s: State, t: Token, pick: Cid)
    requires t < |s.workers| && ShapeInv(s.job, s.workers[t]) && s.workers[t].pc.Identify?
    requires var pc := s.workers[t].pc; pc.todo != {} ==> pick in pc.todo
    ensures Changes(s, t, IdentifyStep(s, t, pick))
  {
    var w := s.workers[t];
    var w' := IdentifyStep(s, t, pick).workers[t];
    if w.pc.todo == {} {
      DecideOnward(s.job, w, w.pc.owned);
      assert w' == Decide(s.job, w, w.pc.owned);
    } else {
      assert w' == w.Catch() || w'.pc.todo == w.pc.todo - {pick};
    }
  }
}
