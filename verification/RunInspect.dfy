/** Which channel a row takes as its own: the whole inspection of the candidates, said by what the
    server and the listing show. */
module RunInspect {
  import opened Wrappers
  import opened TreeBuilders
  import opened RunMachine
  import opened RunInvariant
  import opened RunCommands
  import opened RunReachable
  import opened RunCalm

  /** The listing shows channel `d` as the run made it for the worker's row. */
  predicate ShownAsMade(job: Job, w: Worker, d: Cid)
    requires AtRow(job, w)
  {
    && d in w.snap
    && w.snap[d].name == job.names[w.idx]
    && w.snap[d].pid == w.rows[w.idx].parentCid
    && (w.snap[d].banner == RowUrl(w.idx) || w.snap[d].banner == IdUrl(d))
  }

  predicate Marked(g: Shared, w: Worker, d: Cid) {
    d in g.server && g.server[d].marker == Some(w.idx)
  }

  /** A listed channel is looked at if it is the recorded one or, with none recorded, shows the
      row's provisional banner. */
  predicate LookedAt(w: Worker, d: Cid)
    requires 0 <= w.idx < |w.rows|
  {
    && d in w.snap
    && (match w.rows[w.idx].cid
        case Some(c) => d == c
        case None => w.snap[d].banner == RowUrl(w.idx))
  }

  /** What channelInfo says of `d` leaves no doubt: it cannot be asked on a stopped connection or
      about a channel that is gone; a marked channel must look as it was made, and the recorded
      one must be marked. */
  predicate Clear(job: Job, g: Shared, w: Worker, d: Cid)
    requires AtRow(job, w)
  {
    && !w.stopped && d in g.server
    && (if g.server[d].marker == Some(w.idx) then ShownAsMade(job, w, d) else w.rows[w.idx].cid.None?)
  }

  /** One inspection, as an equivalence: a marked channel is taken in exactly if the listing shows
      it with the row's name, the row's parent and the provisional or the final banner; an
      unmarked one is passed over exactly if no id is recorded; else the row fails. */
  lemma InspectIff(s: State, t: Token, pick: Cid)
    requires t < |s.workers| && s.workers[t].pc.Identify? && AtRow(s.job, s.workers[t])
    requires |s.g.rows| == |s.job.depths| && pick in s.workers[t].pc.todo
    ensures var w, s' := s.workers[t], Act(s, t, pick);
      var w' := s'.workers[t];
      && s'.g == s.g
      && (w'.pc == Identify(w.pc.todo - {pick}, w.pc.owned + [pick]) <==>
            && !w.stopped && pick in s.g.server && s.g.server[pick].marker == Some(w.idx)
            && pick in w.snap && w.snap[pick].name == s.job.names[w.idx]
            && w.snap[pick].pid == w.rows[w.idx].parentCid
            && (w.snap[pick].banner == RowUrl(w.idx) || w.snap[pick].banner == IdUrl(pick)))
      && (w'.pc == Identify(w.pc.todo - {pick}, w.pc.owned) <==>
            !w.stopped && pick in s.g.server && s.g.server[pick].marker != Some(w.idx) && w.rows[w.idx].cid.None?)
      && (w'.pc.Identify? || w'.pc == RowCatch)
      && w' == w.(pc := w'.pc)
  {
    assert Act(s, t, pick) == IdentifyStep(s, t, pick);
    assert |s.workers[t].pc.owned + [pick]| != |s.workers[t].pc.owned|;
  }

  // ------------------------------------------------------------ all of it

  /** While candidates are left, everything inspected so far was clear, and the marked ones were taken in. */
  ghost predicate Inspecting(job: Job, g: Shared, w: Worker, todo: set<Cid>, owned: seq<Cid>)
    requires AtRow(job, w)
  {
    && (forall d :: d in todo ==> LookedAt(w, d))
    && (forall d :: LookedAt(w, d) && d !in todo ==> Clear(job, g, w, d))
    && (forall d :: d in owned <==> LookedAt(w, d) && d !in todo && Marked(g, w, d))
    && (forall i, j :: 0 <= i < j < |owned| ==> owned[i] != owned[j])
  }

  predicate OnlyActs(events: seq<Event>, t: Token) {
    forall k :: 0 <= k < |events| ==> events[k].Acts? && events[k].t == t
  }

  /** Worker `w` inspects, and its inspection began in this state. */
  ghost predicate StillInspecting(job: Job, g: Shared, w: Worker, s: State, t: Token)
    requires AtRow(job, w)
  {
    && s.job == job && s.g == g && t < |s.workers| && s.workers[t].pc.Identify?
    && s.workers[t] == w.(pc := s.workers[t].pc)
    && Inspecting(job, g, w, s.workers[t].pc.todo, s.workers[t].pc.owned)
  }

  lemma InspectOne(s0: State, t: Token, s: State, pick: Cid)
    requires t < |s0.workers| && AtRow(s0.job, s0.workers[t]) && |s0.g.rows| == |s0.job.depths|
    requires StillInspecting(s0.job, s0.g, s0.workers[t], s, t) && pick in s.workers[t].pc.todo
    ensures var s' := Act(s, t, pick);
      && (Clear(s0.job, s0.g, s0.workers[t], pick) ==> StillInspecting(s0.job, s0.g, s0.workers[t], s', t))
      && (!Clear(s0.job, s0.g, s0.workers[t], pick) ==> s'.workers[t] == s0.workers[t].(pc := RowCatch) && s'.g == s0.g)
  {
    InspectIff(s, t, pick);
    ActJob(s, t, pick);
    var owned := s.workers[t].pc.owned;
    assert forall d :: d in owned + [pick] <==> d in owned || d == pick;
  }

  /** Channel `c` carries the row's marker and was looked at. */
  predicate Found(g: Shared, w: Worker, c: Cid)
    requires 0 <= w.idx < |w.rows|
  {
    LookedAt(w, c) && Marked(g, w, c)
  }

  /** Something looked at leaves a doubt, or two channels claim to be the row's. */
  ghost predicate Doubtful(job: Job, g: Shared, w: Worker)
    requires AtRow(job, w)
  {
    || (exists d :: LookedAt(w, d) && !Clear(job, g, w, d))
    || (exists c, d :: Found(g, w, c) && Found(g, w, d) && c != d)
  }

  /** Nothing was found, though something may be there. */
  ghost predicate Unexplained(g: Shared, w: Worker)
    requires 0 <= w.idx < |w.rows|
  {
    && (forall c :: !Found(g, w, c))
    && (w.rows[w.idx].status == Creating || w.rows[w.idx].status == Uncertain)
    && w.rows[w.idx].cid.None?
  }

  predicate Occupied(job: Job, w: Worker)
    requires AtRow(job, w)
  {
    exists d :: d in w.snap && w.snap[d].pid == w.rows[w.idx].parentCid && w.snap[d].name == job.names[w.idx]
  }

  predicate Parent(snap: map<Cid, Listed>, c: Cid) {
    exists d :: d in snap && snap[d].pid == Some(c)
  }

  /** When the row fails: on a doubt, on an unexplained creation; for a resume, if the recorded
      channel is not there or the place of a new one is occupied; for an undo, if the channel has
      subchannels. */
  ghost predicate Refused(job: Job, g: Shared, w: Worker)
    requires AtRow(job, w)
  {
    || Doubtful(job, g, w) || Unexplained(g, w)
    || (match w.kind
        case Resume => (forall c :: !Found(g, w, c)) && (w.rows[w.idx].cid.Some? || Occupied(job, w))
        case Undo => exists c :: Found(g, w, c) && Parent(w.snap, c))
  }

  /** What the worker is after its inspection: `before` is what it was. */
  ghost predicate Inspected(job: Job, g: Shared, before: Worker, w: Worker)
    requires AtRow(job, before)
  {
    && (Refused(job, g, before) ==> GivesUp(g, before, w))
    && (!Refused(job, g, before) && (forall c :: !Found(g, before, c)) ==>
          w == before.(pc := if before.kind == Resume then Latch else MarkDeleted))
    && (forall c :: !Refused(job, g, before) && Found(g, before, c) ==> Accepts(before, c, w))
  }

  /** The row fails; an undo that found the channel occupied remembers its id. */
  ghost predicate GivesUp(g: Shared, before: Worker, w: Worker)
    requires 0 <= before.idx < |before.rows|
  {
    || w == before.(pc := RowCatch)
    || exists c :: Found(g, before, c)
         && w == before.(pc := RowCatch, rows := before.rows[before.idx := before.rows[before.idx].(cid := Some(c))])
  }

  /** The row's channel is known, and nothing else changed. */
  predicate Accepts(before: Worker, c: Cid, w: Worker)
    requires 0 <= before.idx < |before.rows|
  {
    && |w.rows| == |before.rows|
    && w == before.(rows := w.rows, pc := if before.kind == Resume then CidLease else IntentLease)
    && w.rows[before.idx] == before.rows[before.idx].(cid := Some(c))
    && forall q :: 0 <= q < |before.rows| && q != before.idx ==> w.rows[q] == before.rows[q]
  }

  lemma DecideAll(job: Job, g: Shared, w: Worker, pc: Pc, owned: seq<Cid>)
    requires AtRow(job, w) && Inspecting(job, g, w, {}, owned)
    ensures Inspected(job, g, w, Decide(job, w.(pc := pc), owned))
  {
    if |owned| == 0 {
      forall c ensures !Found(g, w, c) {
        assert c !in owned;
      }
      DecideNone(job, g, w, pc);
    } else if |owned| == 1 {
      DecideOne(job, g, w, pc, owned);
    } else {
      assert owned[0] in owned && owned[1] in owned;
      assert Found(g, w, owned[0]) && Found(g, w, owned[1]);
    }
  }

  lemma DecideNone(job: Job, g: Shared, w: Worker, pc: Pc)
    requires AtRow(job, w) && (forall d :: LookedAt(w, d) ==> Clear(job, g, w, d)) && forall c :: !Found(g, w, c)
    ensures Inspected(job, g, w, Decide(job, w.(pc := pc), []))
  {
    assert !Doubtful(job, g, w);
    assert Occupied(job, w) <==> NameTaken(w.snap, w.rows[w.idx].parentCid, job.names[w.idx]);
    var row, w' := w.rows[w.idx], Decide(job, w.(pc := pc), []);
    if w.kind == Resume {
      assert Refused(job, g, w) <==> row.cid.Some? || OutcomeUnknown(row.status) || Occupied(job, w);
      assert w' == w.(pc := if Refused(job, g, w) then RowCatch else Latch);
    } else {
      assert Refused(job, g, w) <==> row.cid.None? && OutcomeUnknown(row.status);
      assert w' == w.(pc := if Refused(job, g, w) then RowCatch else MarkDeleted);
    }
  }

  lemma DecideOne(job: Job, g: Shared, w: Worker, pc: Pc, owned: seq<Cid>)
    requires AtRow(job, w) && |owned| == 1 && Inspecting(job, g, w, {}, owned)
    ensures Inspected(job, g, w, Decide(job, w.(pc := pc), owned))
  {
    var c := owned[0];
    assert c in owned;
    forall d ensures Found(g, w, d) <==> d == c {
      assert Found(g, w, d) <==> d in owned;
    }
    assert Found(g, w, c);
    assert !Doubtful(job, g, w) && !Unexplained(g, w);
    assert Refused(job, g, w) <==> w.kind == Undo && HasChild(w.snap, c);
  }

  /** Worker `t` inspects from `s` on, and nothing else happens. */
  ghost predicate Inspects(s: State, t: Token, events: seq<Event>) {
    && OnlyActs(events, t)
    && forall k :: 0 <= k <= |events| ==> AtIdentify(Run(s, events[..k]), t)
  }

  predicate AtIdentify(s: State, t: Token) {
    t < |s.workers| && s.workers[t].pc.Identify?
  }

  lemma {:induction false} InspectionRun(s: State, t: Token, events: seq<Event>)
    requires t < |s.workers| && AtRow(s.job, s.workers[t]) && |s.g.rows| == |s.job.depths|
    requires s.workers[t].pc == Identify(Candidates(s.workers[t]), []) && Inspects(s, t, events)
    ensures StillInspecting(s.job, s.g, s.workers[t], Run(s, events), t)
  {
    assert events[..|events|] == events;
    assert AtIdentify(Run(s, events), t);
    if events != [] {
      var before, e := events[..|events| - 1], events[|events| - 1];
      forall k | 0 <= k <= |before| ensures AtIdentify(Run(s, before[..k]), t) {
        assert before[..k] == events[..k];
      }
      InspectionRun(s, t, before);
      InspectionGoesOn(s, t, Run(s, before), e.pick);
    }
  }

  lemma InspectionGoesOn(s: State, t: Token, s1: State, pick: Cid)
    requires t < |s.workers| && AtRow(s.job, s.workers[t]) && |s.g.rows| == |s.job.depths|
    requires StillInspecting(s.job, s.g, s.workers[t], s1, t) && AtIdentify(Act(s1, t, pick), t)
    ensures StillInspecting(s.job, s.g, s.workers[t], Act(s1, t, pick), t)
  {
    var w1 := s1.workers[t];
    assert Act(s1, t, pick) == IdentifyStep(s1, t, pick);
    if w1.pc.todo == {} {
      DecideOnward(s1.job, w1, w1.pc.owned);
    } else if pick in w1.pc.todo {
      InspectOne(s, t, s1, pick);
    }
  }

  /** Identification as a whole, in whatever order the replies come: the step that ends the
      inspection leaves the worker exactly so. */
  lemma IdentifyOutcome(s: State, t: Token, events: seq<Event>, pick: Cid)
    requires t < |s.workers| && AtRow(s.job, s.workers[t]) && |s.g.rows| == |s.job.depths|
    requires s.workers[t].pc == Identify(Candidates(s.workers[t]), []) && Inspects(s, t, events)
    requires !AtIdentify(Act(Run(s, events), t, pick), t)
    ensures var s2 := Act(Run(s, events), t, pick);
      s2.g == s.g && t < |s2.workers| && Inspected(s.job, s.g, s.workers[t], s2.workers[t])
  {
    InspectionRun(s, t, events);
    InspectionEnds(s, t, Run(s, events), pick);
  }

  lemma InspectionEnds(s: State, t: Token, s1: State, pick: Cid)
    requires t < |s.workers| && AtRow(s.job, s.workers[t]) && |s.g.rows| == |s.job.depths|
    requires StillInspecting(s.job, s.g, s.workers[t], s1, t) && !AtIdentify(Act(s1, t, pick), t)
    ensures var s2 := Act(s1, t, pick);
      s2.g == s.g && t < |s2.workers| && Inspected(s.job, s.g, s.workers[t], s2.workers[t])
  {
    var w, w1 := s.workers[t], s1.workers[t];
    assert Act(s1, t, pick) == IdentifyStep(s1, t, pick);
    if w1.pc.todo == {} {
      DecideAll(s.job, s.g, w, w1.pc, w1.pc.owned);
    } else if pick in w1.pc.todo {
      InspectOne(s, t, s1, pick);
    }
  }

  // ------------------------------------------------------------ what a resume works on

  /** A resume that knows its row's channel sees it in its listing as the row's. */
  predicate KnowsItsOwn(job: Job, w: Worker) {
    w.kind == Resume && CidPc(w.pc) && AtRow(job, w) ==>
      w.rows[w.idx].cid.Some? && ShownAsMade(job, w, w.rows[w.idx].cid.value)
  }

  ghost predicate OwnInv(s: State) {
    forall t :: 0 <= t < |s.workers| ==> KnowsItsOwn(s.job, s.workers[t])
  }

  /** The worker stays at its channel, or is at none. */
  predicate StaysThere(w: Worker, w': Worker) {
    CidPc(w'.pc) && w'.kind == Resume ==>
      CidPc(w.pc) && w.kind == Resume && w'.idx == w.idx && w'.rows == w.rows && w'.snap == w.snap
  }

  predicate StaysAt(s: State, t: Token, s': State) {
    t < |s.workers| && t < |s'.workers| && s'.job == s.job && StaysThere(s.workers[t], s'.workers[t])
  }

  predicate OwnThere(s: State, t: Token) {
    t < |s.workers| && KnowsItsOwn(s.job, s.workers[t])
  }

  lemma OwnActs(s: State, t: Token, pick: Cid) returns (s': State)
    requires Inv(s) && OwnThere(s, t)
    ensures s' == Act(s, t, pick) && OwnThere(s', t)
  {
    var w := s.workers[t];
    assert WorkerInv(s.job, s.g, t, w);
    if w.pc.Identify? {
      s' := IdentifyStep(s, t, pick);
      OwnIdentify(s, t, pick);
    } else if w.pc.AwaitCreate? {
      s' := AwaitCreateStep(s, t);
      OwnCreated(s, t);
    } else if RowPc(w.pc) {
      s' := ActOnRow(s, t, pick);
      OwnRow(s, t, pick);
    } else {
      s' := Act(s, t, pick);
      LoopStays(s, t, pick);
    }
  }

  lemma LoopStays(s: State, t: Token, pick: Cid)
    requires t < |s.workers| && ShapeInv(s.job, s.workers[t]) && !RowPc(s.workers[t].pc)
    ensures StaysAt(s, t, Act(s, t, pick))
  {
  }

  lemma OwnIdentify(s: State, t: Token, pick: Cid)
    requires t < |s.workers| && ShapeInv(s.job, s.workers[t]) && PcInv(s.job, s.g, t, s.workers[t])
    requires s.workers[t].pc.Identify?
    ensures OwnThere(IdentifyStep(s, t, pick), t)
  {
    var w := s.workers[t];
    if w.pc.todo == {} {
      OwnDecided(s.job, w, w.pc.owned);
      assert IdentifyStep(s, t, pick) == s.Put(t, Decide(s.job, w, w.pc.owned));
    }
  }

  lemma OwnDecided(job: Job, w: Worker, owned: seq<Cid>)
    requires AtRow(job, w) && (|owned| > 0 ==> Unchanged(job, w, owned[0]))
    ensures KnowsItsOwn(job, Decide(job, w, owned))
  {
    if |owned| == 1 {
      var found := w.Local(w.rows[w.idx].(cid := Some(owned[0])));
      assert found.rows[w.idx].parentCid == w.rows[w.idx].parentCid && found.snap == w.snap && found.idx == w.idx;
      assert ShownAsMade(job, found, owned[0]);
    }
  }

  lemma OwnCreated(s: State, t: Token)
    requires t < |s.workers| && ShapeInv(s.job, s.workers[t]) && s.workers[t].pc.AwaitCreate?
    ensures OwnThere(AwaitCreateStep(s, t), t)
  {
  }

  lemma OwnRow(s: State, t: Token, pick: Cid)
    requires t < |s.workers| && ShapeInv(s.job, s.workers[t]) && |s.g.rows| == |s.job.depths|
    requires RowPc(s.workers[t].pc) && !s.workers[t].pc.Identify? && !s.workers[t].pc.AwaitCreate?
    ensures StaysAt(s, t, ActOnRow(s, t, pick))
  {
    var pc := s.workers[t].pc;
    if UndoPc(pc) || pc.RowCatch? {
      BackStays(s, t, pick);
    } else if pc.WriteParent? || pc.Latch? || pc.WriteCid? || pc.SaveImage? || pc.WriteSaved? {
      WriteStays(s, t, pick);
    } else {
      CommandStays(s, t, pick);
    }
  }

  lemma CommandStays(s: State, t: Token, pick: Cid)
    requires t < |s.workers| && ShapeInv(s.job, s.workers[t]) && |s.g.rows| == |s.job.depths|
    requires var pc := s.workers[t].pc; LeasePc(pc) || pc.SendCreate? || pc.SendEdit? || pc.AwaitEdit?
    ensures StaysAt(s, t, ActOnRow(s, t, pick))
  {
    var w := s.workers[t];
    if LeasePc(w.pc) {
      LeaseStays(s, t);
      assert ActOnRow(s, t, pick) == AssertLease(s, t, w.Go(LeaseNext(w.pc)));
    }
  }

  lemma LeaseStays(s: State, t: Token)
    requires t < |s.workers| && ShapeInv(s.job, s.workers[t]) && LeasePc(s.workers[t].pc)
    ensures StaysAt(s, t, AssertLease(s, t, s.workers[t].Go(LeaseNext(s.workers[t].pc))))
  {
  }

  lemma BackStays(s: State, t: Token, pick: Cid)
    requires t < |s.workers| && ShapeInv(s.job, s.workers[t]) && |s.g.rows| == |s.job.depths|
    requires UndoPc(s.workers[t].pc) || s.workers[t].pc.RowCatch?
    ensures StaysAt(s, t, ActOnRow(s, t, pick))
  {
  }

  lemma WriteStays(s: State, t: Token, pick: Cid)
    requires t < |s.workers| && ShapeInv(s.job, s.workers[t]) && |s.g.rows| == |s.job.depths|
    requires var pc := s.workers[t].pc; pc.WriteParent? || pc.Latch? || pc.WriteCid? || pc.SaveImage? || pc.WriteSaved?
    ensures StaysAt(s, t, ActOnRow(s, t, pick))
  {
    if s.workers[t].pc.SaveImage? || s.workers[t].pc.WriteSaved? {
      StoreStays(s, t, pick);
    }
  }

  lemma StoreStays(s: State, t: Token, pick: Cid)
    requires t < |s.workers| && ShapeInv(s.job, s.workers[t]) && |s.g.rows| == |s.job.depths|
    requires s.workers[t].pc.SaveImage? || s.workers[t].pc.WriteSaved?
    ensures StaysAt(s, t, ActOnRow(s, t, pick))
  {
  }

  lemma OwnNext(s: State, e: Event)
    requires Inv(s) && OwnInv(s)
    ensures OwnInv(Next(s, e))
  {
    var s' := Next(s, e);
    NextJob(s, e);
    forall t | 0 <= t < |s'.workers| ensures KnowsItsOwn(s'.job, s'.workers[t]) {
      OwnAt(s, e, t);
    }
  }

  lemma OwnAt(s: State, e: Event, t: Token)
    requires Inv(s) && OwnInv(s) && t < |Next(s, e).workers|
    ensures KnowsItsOwn(s.job, Next(s, e).workers[t])
  {
    if e.Acts? && e.t < |s.workers| {
      NextActs(s, e.t, e.pick);
      OwnTurn(s, e.t, e.pick, t);
    } else if e.Delivers? && e.t < |s.workers| {
      NextDelivers(s, e.t, e.cid);
      OwnDelivered(s, e.t, e.cid, t);
    } else if e.Fails? && e.t < |s.workers| {
      OwnFailed(s, e.t, t);
      assert Next(s, e) == Fail(s, e.t);
    } else {
      OwnElse(s, e, t);
    }
  }

  lemma OwnElse(s: State, e: Event, t: Token)
    requires OwnInv(s) && t < |Next(s, e).workers|
    requires !((e.Acts? || e.Delivers? || e.Fails?) && e.t < |s.workers|)
    ensures KnowsItsOwn(s.job, Next(s, e).workers[t])
  {
    if e.Finishes? && e.t < |s.workers| {
      NextFinishes(s, e.t);
      OwnFinished(s, e.t, t);
    }
  }

  lemma OwnFinished(s: State, u: Token, t: Token)
    requires OwnInv(s) && u < |s.workers| && t < |Finish(s, u).workers|
    ensures KnowsItsOwn(s.job, Finish(s, u).workers[t])
  {
    OnlyOuter(s, u);
    if t == u {
      SameOwn(s.job, s.workers[t], OuterNext(s.workers[t]));
    }
  }

  lemma SameOwn(job: Job, w: Worker, outer: Outer)
    requires KnowsItsOwn(job, w)
    ensures KnowsItsOwn(job, w.(outer := outer))
  {
  }

  lemma OwnTurn(s: State, u: Token, pick: Cid, t: Token)
    requires Inv(s) && OwnInv(s) && u < |s.workers| && t < |Act(s, u, pick).workers|
    ensures KnowsItsOwn(s.job, Act(s, u, pick).workers[t])
  {
    if t == u {
      var s' := OwnActs(s, u, pick);
      ActJob(s, u, pick);
    } else {
      OtherTurn(s, u, pick, t);
    }
  }

  lemma OtherTurn(s: State, u: Token, pick: Cid, t: Token)
    requires u < |s.workers| && t < |Act(s, u, pick).workers| && t != u
    ensures t < |s.workers| && Act(s, u, pick).workers[t] == s.workers[t]
  {
  }

  lemma OwnDelivered(s: State, u: Token, c: Cid, t: Token)
    requires OwnInv(s) && u < |s.workers| && t < |Deliver(s, u, c).workers|
    ensures KnowsItsOwn(s.job, Deliver(s, u, c).workers[t])
  {
    var flight := OnlyFlight(s, u, c);
    if t == u {
      FlightOwn(s.job, s.workers[t], flight);
    }
  }

  lemma FlightOwn(job: Job, w: Worker, flight: Flight)
    requires KnowsItsOwn(job, w)
    ensures KnowsItsOwn(job, w.(flight := flight))
  {
  }

  lemma OwnFailed(s: State, u: Token, t: Token)
    requires OwnInv(s) && u < |s.workers| && t < |Fail(s, u).workers|
    ensures KnowsItsOwn(s.job, Fail(s, u).workers[t])
  {
  }

  lemma {:induction false} OwnRun(s: State, events: seq<Event>)
    requires Init(s)
    ensures Inv(Run(s, events)) && OwnInv(Run(s, events))
  {
    if events == [] {
      InitInv(s);
    } else {
      OwnRun(s, events[..|events| - 1]);
      NextInv(Run(s, events[..|events| - 1]), events[|events| - 1]);
      OwnNext(Run(s, events[..|events| - 1]), events[|events| - 1]);
    }
  }

  /** In every run: the channel a resume stores an id, an image or a banner for is one the run
      created for that row, and its listing shows it with the row's name, the row's parent and
      the provisional or the final banner. */
  lemma ResumesItsOwn(s0: State, events: seq<Event>, t: Token)
    requires Init(s0)
    requires var s := Run(s0, events); t < |s.workers| && s.workers[t].kind == Resume && CidPc(s.workers[t].pc)
    ensures var s := Run(s0, events);
      var w := s.workers[t];
      && 0 <= w.idx < |w.rows| && w.idx < |s.job.names| && w.rows[w.idx].cid.Some?
      && var c := w.rows[w.idx].cid.value;
        && BornCid(s.g, w.idx, c) && c in w.snap
        && w.snap[c].name == s.job.names[w.idx]
        && w.snap[c].pid == w.rows[w.idx].parentCid
        && (w.snap[c].banner == RowUrl(w.idx) || w.snap[c].banner == IdUrl(c))
  {
    OwnRun(s0, events);
    OwnOf(Run(s0, events), t);
  }

  lemma OwnOf(s: State, t: Token)
    requires Inv(s) && OwnInv(s) && t < |s.workers| && s.workers[t].kind == Resume && CidPc(s.workers[t].pc)
    ensures var w := s.workers[t];
      && AtRow(s.job, w) && w.rows[w.idx].cid.Some? && ShownAsMade(s.job, w, w.rows[w.idx].cid.value)
      && BornCid(s.g, w.idx, w.rows[w.idx].cid.value)
  {
    var w := s.workers[t];
    assert WorkerInv(s.job, s.g, t, w) && LocalInv(s.job, s.g, w, w.idx);
  }
}
