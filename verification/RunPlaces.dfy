/** Every listing shows the run's own channels under their rows' names, so a row never finds its
    place taken by a channel of its own run. */
module RunPlaces {
  import opened TreeBuilders
  import opened RunMachine
  import opened RunInvariant
  import opened RunFrames
  import opened RunReachable
  import opened RunTheorems
  import opened RunRecovery
  import opened RunLeaves

  /** If channel `d` is the one created for row `q`, the listing shows it under that row's name,
      unless an outsider edited it. */
  predicate SeenAs(job: Job, g: Shared, w: Worker, d: Cid, q: int) {
    d in w.snap ==>
      && d in g.used
      && (BornCid(g, q, d) && d !in g.edited && 0 <= q < |job.names| ==> w.snap[d].name == job.names[q])
  }

  ghost predicate SeenWell(job: Job, g: Shared, w: Worker) {
    forall d, q :: SeenAs(job, g, w, d, q)
  }

  ghost predicate ListingsInv(s: State) {
    forall t :: 0 <= t < |s.workers| ==> SeenWell(s.job, s.g, s.workers[t])
  }

  /** What others do leaves it true. */
  ghost predicate LessNews(g: Shared, g': Shared) {
    && g.used <= g'.used && g.edited <= g'.edited
    && forall q, d :: BornCid(g', q, d) ==> BornCid(g, q, d) || d !in g.used
  }

  predicate ShowsLess(w: Worker, w': Worker) {
    forall d :: d in w'.snap ==> d in w.snap && w'.snap[d] == w.snap[d]
  }

  lemma SeenStable(job: Job, g: Shared, g': Shared, w: Worker, w': Worker)
    requires SeenWell(job, g, w) && LessNews(g, g') && ShowsLess(w, w')
    ensures SeenWell(job, g', w')
  {
    forall d, q ensures SeenAs(job, g', w', d, q) {
      assert SeenAs(job, g, w, d, q);
    }
  }

  /** A fresh listing. */
  lemma SeenListed(job: Job, g: Shared, w: Worker)
    requires SharedInv(job, g) && w.snap == Looks(g.server)
    ensures SeenWell(job, g, w)
  {
    forall d, q ensures SeenAs(job, g, w, d, q) {
      assert ChannelInv(g, d) && BornInv(job, g, q);
    }
  }

  /** The worker's own new channel. */
  lemma SeenCreated(job: Job, g: Shared, t: Token, w: Worker)
    requires SharedInv(job, g) && WorkerInv(job, g, t, w) && SeenWell(job, g, w)
    requires w.pc.AwaitCreate? && w.flight.Applied?
    ensures var shown := Listed(job.names[w.idx], w.rows[w.idx].parentCid, RowUrl(w.idx));
      SeenWell(job, g, w.(snap := w.snap[w.flight.cid := shown]))
  {
    var c, p := w.flight.cid, w.idx;
    assert BornCid(g, p, c) && BornInv(job, g, p) && p in BornCids(g.born);
    var w' := w.(snap := w.snap[c := Listed(job.names[p], w.rows[p].parentCid, RowUrl(p))]);
    forall d, q ensures SeenAs(job, g, w', d, q) {
      assert SeenAs(job, g, w, d, q);
      assert BornCid(g, q, c) ==> q in BornCids(g.born);
    }
  }

  /** The worker's own step. */
  lemma OwnListing(s: State, t: Token, pick: Cid) returns (s': State)
    requires Inv(s) && t < |s.workers| && SeenWell(s.job, s.g, s.workers[t])
    ensures s' == Act(s, t, pick) && t < |s'.workers| && SeenWell(s.job, s.g, s'.workers[t])
  {
    var w := s.workers[t];
    assert WorkerInv(s.job, s.g, t, w);
    s' := Act(s, t, pick);
    if w.pc.ListChannels? && !w.stopped {
      SeenListed(s.job, s.g, s'.workers[t]);
    } else if w.pc.AwaitCreate? && w.flight.Applied? {
      CreatedListing(s, t, pick);
    } else {
      OtherListing(s, t, pick);
      SeenStable(s.job, s.g, s.g, w, s'.workers[t]);
    }
  }

  lemma CreatedListing(s: State, t: Token, pick: Cid)
    requires Inv(s) && t < |s.workers| && SeenWell(s.job, s.g, s.workers[t])
    requires s.workers[t].pc.AwaitCreate? && s.workers[t].flight.Applied?
    ensures t < |Act(s, t, pick).workers| && SeenWell(s.job, s.g, Act(s, t, pick).workers[t])
  {
    var w := s.workers[t];
    assert WorkerInv(s.job, s.g, t, w);
    SeenCreated(s.job, s.g, t, w);
    var w1 := w.(snap := w.snap[w.flight.cid := Listed(s.job.names[w.idx], w.rows[w.idx].parentCid, RowUrl(w.idx))]);
    assert Act(s, t, pick) == AwaitCreateStep(s, t);
    SeenStable(s.job, s.g, s.g, w1, AwaitCreateStep(s, t).workers[t]);
  }

  lemma OtherListing(s: State, t: Token, pick: Cid)
    requires t < |s.workers| && ShapeInv(s.job, s.workers[t]) && |s.g.rows| == |s.job.depths|
    requires !(s.workers[t].pc.ListChannels? && !s.workers[t].stopped)
    requires !(s.workers[t].pc.AwaitCreate? && s.workers[t].flight.Applied?)
    ensures t < |Act(s, t, pick).workers| && ShowsLess(s.workers[t], Act(s, t, pick).workers[t])
  {
    var w := s.workers[t];
    if w.pc.AwaitCreate? || w.pc.AwaitDelete? {
      AwaitListing(s, t);
    } else if RowPc(w.pc) {
      RowListing(s, t, pick);
    } else if w.pc.RowStart? {
      StartListing(s, t);
    }
  }

  lemma AwaitListing(s: State, t: Token)
    requires t < |s.workers| && ShapeInv(s.job, s.workers[t])
    ensures s.workers[t].pc.AwaitDelete? ==> ShowsLess(s.workers[t], AwaitDeleteStep(s, t).workers[t])
    ensures s.workers[t].pc.AwaitCreate? && !s.workers[t].flight.Applied? ==>
              ShowsLess(s.workers[t], AwaitCreateStep(s, t).workers[t])
  {
  }

  // ------------------------------------------------------------ every step

  lemma NewsNext(s: State, e: Event)
    requires Inv(s)
    ensures LessNews(s.g, Next(s, e).g)
  {
    if e.Delivers? && e.t < |s.workers| {
      DeliverNews(s, e.t, e.cid);
    } else if !e.Outsiders? {
      ServerStays(s, e);
    }
  }

  lemma DeliverNews(s: State, t: Token, c: Cid)
    requires Inv(s) && t < |s.workers|
    ensures LessNews(s.g, Deliver(s, t, c).g)
  {
  }

  lemma ListingsNext(s: State, e: Event)
    requires Inv(s) && ListingsInv(s)
    ensures ListingsInv(Next(s, e))
  {
    var s' := Next(s, e);
    NextSameJob(s, e);
    forall t | 0 <= t < |s'.workers| ensures SeenWell(s'.job, s'.g, s'.workers[t]) {
      ListingNext(s, e, t);
    }
  }

  lemma NextSameJob(s: State, e: Event)
    ensures Next(s, e).job == s.job
  {
  }

  lemma ListingNext(s: State, e: Event, t: Token)
    requires Inv(s) && (t < |s.workers| ==> SeenWell(s.job, s.g, s.workers[t])) && t < |Next(s, e).workers|
    ensures SeenWell(s.job, Next(s, e).g, Next(s, e).workers[t])
  {
    NewsNext(s, e);
    if e.Acts? && e.t < |s.workers| {
      ActSize(s, e.t, e.pick);
      if e.t == t {
        var s' := OwnListing(s, t, e.pick);
        SeenStable(s.job, s.g, s'.g, s'.workers[t], s'.workers[t]);
      } else {
        ActOthers(s, e.t, e.pick, t);
        SeenStable(s.job, s.g, Next(s, e).g, s.workers[t], s.workers[t]);
      }
    } else {
      ElseListing(s, e, t);
    }
  }

  lemma ElseListing(s: State, e: Event, t: Token)
    requires LessNews(s.g, Next(s, e).g) && !(e.Acts? && e.t < |s.workers|)
    requires (t < |s.workers| ==> SeenWell(s.job, s.g, s.workers[t])) && t < |Next(s, e).workers|
    ensures SeenWell(s.job, Next(s, e).g, Next(s, e).workers[t])
  {
    if t < |s.workers| {
      ElseShows(s, e, t);
      SeenStable(s.job, s.g, Next(s, e).g, s.workers[t], Next(s, e).workers[t]);
    } else {
      forall d, q ensures SeenAs(s.job, Next(s, e).g, Next(s, e).workers[t], d, q) {
      }
    }
  }

  lemma ElseShows(s: State, e: Event, t: Token)
    requires !(e.Acts? && e.t < |s.workers|) && t < |s.workers|
    ensures t < |Next(s, e).workers| && ShowsLess(s.workers[t], Next(s, e).workers[t])
  {
    if e.Delivers? && e.t < |s.workers| {
      DeliverShows(s, e.t, e.cid, t);
    } else if e.Fails? && e.t < |s.workers| {
      FailShows(s, e.t, t);
    }
  }

  lemma DeliverShows(s: State, u: Token, c: Cid, t: Token)
    requires u < |s.workers| && t < |s.workers|
    ensures t < |Deliver(s, u, c).workers| && ShowsLess(s.workers[t], Deliver(s, u, c).workers[t])
  {
  }

  lemma FailShows(s: State, u: Token, t: Token)
    requires u < |s.workers| && t < |s.workers|
    ensures t < |Fail(s, u).workers| && ShowsLess(s.workers[t], Fail(s, u).workers[t])
  {
  }

  lemma {:induction false} ListingsRun(s: State, events: seq<Event>)
    requires Init(s)
    ensures Inv(Run(s, events)) && ListingsInv(Run(s, events))
  {
    if events == [] {
      InitInv(s);
    } else {
      ListingsRun(s, events[..|events| - 1]);
      NextInv(Run(s, events[..|events| - 1]), events[|events| - 1]);
      ListingsNext(Run(s, events[..|events| - 1]), events[|events| - 1]);
    }
  }

  /** The holder finds the place of a row it has not begun taken by channel `d`. */
  predicate Conflict(s: State, t: Token, d: Cid) {
    && t < |s.workers| && Held(s.g, t)
    && var w := s.workers[t];
      && w.kind == Resume && w.pc.Identify? && AtRow(s.job, w) && !Latched(w.rows[w.idx])
      && d in w.snap && w.snap[d].name == s.job.names[w.idx]
  }

  lemma ConflictAt(s: State, t: Token, d: Cid, q: int)
    requires Inv(s) && ListingsInv(s) && DistinctNames(s.job.names) && Conflict(s, t, d) && BornCid(s.g, q, d)
    ensures d in s.g.edited
  {
    var w := s.workers[t];
    HolderOf(s, t);
    assert SeenWell(s.job, s.g, w);
    assert SeenAs(s.job, s.g, w, d, q);
    assert BornInv(s.job, s.g, q);
    assert SameAhead(s.g, w, w.idx);
    assert RowInv(s.job, s.g, w.idx);
  }

  /** A run never stands in its own way: such a channel is somebody else's, or was edited. */
  lemma ConflictIsForeign(s0: State, events: seq<Event>, t: Token, d: Cid, q: int)
    requires Init(s0)
    requires var s := Run(s0, events); DistinctNames(s.job.names) && Conflict(s, t, d) && BornCid(s.g, q, d)
    ensures d in Run(s0, events).g.edited
  {
    ListingsRun(s0, events);
    ConflictAt(Run(s0, events), t, d, q);
  }
}
